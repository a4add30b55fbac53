/** What each operation does, told from the event that added its stage and the results of the stages
    it names: when it runs its closure, with which arguments, and what its result is. */
module Operations {
  import opened FlowModel
  import opened StageStrategy
  import opened Replay
  import opened Structure
  import opened Semantics
  import opened Journaled

  // ----- Triggers over known dependencies -----

  lemma NoInputs(g: Graph, x: StageId)
    requires x in g.stages && g.stages[x].dependencies == [] && g.stages[x].strategy.trigger.WaitForAll?
    ensures Trigger(g, x) == Ready(true, [])
  {
    assert DependencyResults(g, []) == [];
  }

  lemma OneInput(g: Graph, x: StageId, d: StageId)
    requires x in g.stages && d in g.stages && g.stages[x].dependencies == [On(d)] && g.stages[x].strategy.trigger.TriggerAny?
    ensures var r := g.stages[d].result;
            Trigger(g, x) == (if r.Some? then Ready(r.value.successful, [r.value]) else NotReady)
  {
    var rs := DependencyResults(g, [On(d)]);
    assert rs == [g.stages[d].result];
    assert rs[0].Some? ==> Succeeded(rs[0]) || Failed(rs[0]);
  }

  lemma EitherInput(g: Graph, x: StageId, a: StageId, b: StageId)
    requires x in g.stages && a in g.stages && b in g.stages
    requires g.stages[x].dependencies == [On(a), On(b)] && g.stages[x].strategy.trigger.TriggerAny?
    ensures var ra, rb := g.stages[a].result, g.stages[b].result;
            Trigger(g, x) == (
              if ra.Some? && ra.value.successful then Ready(true, [ra.value])
              else if rb.Some? && rb.value.successful then Ready(true, [rb.value])
              else if ra.Some? && rb.Some? then Ready(false, [rb.value])
              else NotReady)
  {
    var rs := DependencyResults(g, [On(a), On(b)]);
    assert rs == [g.stages[a].result, g.stages[b].result];
    assert Failed(rs[0]) && Failed(rs[1]) ==> AllFailed(rs);
    assert AllFailed(rs) ==> Failed(rs[0]) && Failed(rs[1]);
    assert Succeeded(rs[0]) || Succeeded(rs[1]) ==> SomeSucceeded(rs);
  }

  lemma BothInputs(g: Graph, x: StageId, a: StageId, b: StageId)
    requires x in g.stages && a in g.stages && b in g.stages
    requires g.stages[x].dependencies == [On(a), On(b)] && g.stages[x].strategy.trigger.WaitForAll?
    ensures var ra, rb := g.stages[a].result, g.stages[b].result;
            Trigger(g, x) == (
              if ra.None? || rb.None? then NotReady
              else if !ra.value.successful then Ready(false, [ra.value])
              else if !rb.value.successful then Ready(false, [rb.value])
              else Ready(true, [ra.value, rb.value]))
  {
    var rs := DependencyResults(g, [On(a), On(b)]);
    assert rs == [g.stages[a].result, g.stages[b].result];
    if AllResolved(rs) {
      assert rs[0].Some? && rs[1].Some?;
      assert Failed(rs[0]) || Succeeded(rs[0]);
    }
  }

  // ----- Stages as they were journaled -----

  /** The stage added at `k`, with its operation's row and its dependencies. */
  lemma JournaledStage(j: seq<Event>, forced: Forced, k: nat)
    requires Good(j, forced) && k < |j| && j[k].StageAdded?
    ensures var e := j[k]; var g := ReplayAll(j);
            && e.stage in g.stages && g.stages[e.stage].operation == e.op && StrategyOf(e.op) == Some(g.stages[e.stage].strategy)
            && (!e.op.TerminationHook? ==>
                  && ArityOk(g.stages[e.stage].strategy, |e.deps|)
                  && g.stages[e.stage].dependencies == OnAll(e.deps)
                  && forall i :: 0 <= i < |e.deps| ==> e.deps[i] in g.stages)
  {
    hide Good, ReplayAll, StrategyOf, KeysOk, ChainOk, RefsOk, LifecycleOk, ComposeClosed;
    AddedAsJournaled(j, forced, k);
    StrategyFromTable(j, forced, j[k].stage);
    ReplayWellFormed(j, forced);
    StageOf(ReplayAll(j), j[k].stage);
    if !j[k].op.TerminationHook? { assert ReplayAll(j).stages[j[k].stage].dependencies == OnAll(j[k].deps); }
  }

  /** What a stage sees of its dependencies are the results of the stages its event names. */
  lemma InputsAsJournaled(j: seq<Event>, forced: Forced, k: nat)
    requires Good(j, forced) && k < |j| && j[k].StageAdded? && !j[k].op.TerminationHook?
    ensures var e := j[k]; var g := ReplayAll(j);
            && e.stage in g.stages && |Inputs(g, e.stage)| == |e.deps|
            && forall i :: 0 <= i < |e.deps| ==> e.deps[i] in g.stages && Inputs(g, e.stage)[i] == g.stages[e.deps[i]].result
  {
    hide Good, ReplayAll, StrategyOf;
    JournaledStage(j, forced, k);
  }

  // ----- The rows of the table, by what they do -----

  lemma RunningRow(op: Operation)
    requires op.Supply? || op.InvokeFunction? || op.Handle?
    ensures StrategyOf(op).Some?
    ensures var s := StrategyOf(op).value;
            && s.resultHandling.InvocationResult?
            && (op.Supply? ==> s.trigger.WaitForAll? && s.success.InvokeWithoutArgs? && s.maxDependencies == 0)
            && (op.InvokeFunction? ==> s.trigger.WaitForAll? && s.success.CompleteExternally? && s.maxDependencies == 0)
            && (op.Handle? ==> s.trigger.TriggerAny? && s.success.InvokeWithResultOrError? && s.failure.InvokeWithResultOrError?
                               && s.minDependencies == 1 && s.maxDependencies == 1)
  {
  }

  lemma ThenRow(op: Operation)
    requires op.ThenApply? || op.ThenAccept? || op.ThenRun? || op.ThenCompose?
    ensures StrategyOf(op).Some?
    ensures var s := StrategyOf(op).value;
            && s.trigger.TriggerAny? && s.failure.PropagateResult? && s.minDependencies == 1 && s.maxDependencies == 1
            && s.success == (if op.ThenRun? then InvokeWithoutArgs else InvokeWithResult)
            && s.resultHandling == (if op.ThenCompose? then ReferencedStageResult else InvocationResult)
  {
  }

  lemma PairRow(op: Operation)
    requires op.AcceptEither? || op.ApplyToEither? || op.ThenCombine? || op.ThenAcceptBoth?
    ensures StrategyOf(op).Some?
    ensures var s := StrategyOf(op).value;
            && s.trigger == (if op.AcceptEither? || op.ApplyToEither? then TriggerAny else WaitForAll)
            && s.success.InvokeWithResult? && s.failure.PropagateResult? && s.resultHandling.InvocationResult?
            && s.minDependencies == 2 && s.maxDependencies == 2
  {
  }

  lemma OtherRow(op: Operation)
    requires op.Exceptionally? || op.ExceptionallyCompose? || op.WhenComplete?
    ensures StrategyOf(op).Some?
    ensures var s := StrategyOf(op).value;
            && s.trigger.TriggerAny? && s.minDependencies == 1 && s.maxDependencies == 1
            && (op.WhenComplete? ==> s.success.InvokeWithResultOrError? && s.failure.InvokeWithResultOrError? && s.resultHandling.ParentStageResult?)
            && (!op.WhenComplete? ==> s.success.PropagateResult? && s.failure.InvokeWithResult?)
            && (op.Exceptionally? ==> s.resultHandling.InvocationResult?)
            && (op.ExceptionallyCompose? ==> s.resultHandling.ReferencedStageResult?)
  {
  }

  // ----- When closures ran, and what came of it -----

  /** A stage that ran was to run; one that did not was to hand on a result or to be completed at once. */
  lemma RanOrHandedOn(j: seq<Event>, forced: Forced, x: StageId)
    requires Good(j, forced) && Resolved(ReplayAll(j), x) && Unforced(forced, x)
    ensures var g := ReplayAll(j);
            && IsReady(g, x)
            && (InvocationStarted(x) in j <==> Invokes(ExecOf(g, x)) || ExecOf(g, x).CompleteExternally?)
            && (ExecOf(g, x).PropagateResult? ==>
                  exists i: nat :: HandsOn(g.stages[x].strategy.trigger, Inputs(g, x), Trigger(g, x).status, g.stages[x].result.value, i))
  {
    hide Good, ReplayAll, Answers, Trigger, HandsOn;
    ResultsFollowStrategies(j, forced, x);
    if InvocationStarted(x) in j { StrategyOfInvoked(j, forced, x); }
  }

  /** supply, invokeFunction and handle always run, handle whatever came of its parent; the result is a
      reply that was journaled. */
  lemma SupplyMeaning(j: seq<Event>, forced: Forced, k: nat)
    requires Good(j, forced) && k < |j| && j[k].StageAdded? && (j[k].op.Supply? || j[k].op.InvokeFunction?)
    requires Resolved(ReplayAll(j), j[k].stage) && Unforced(forced, j[k].stage)
    ensures InvocationStarted(j[k].stage) in j && InvocationCompleted(j[k].stage, ReplayAll(j).stages[j[k].stage].result.value) in j
  {
    hide Good, ReplayAll, StrategyOf;
    var x := j[k].stage;
    JournaledStage(j, forced, k);
    RunningRow(j[k].op);
    NoInputs(ReplayAll(j), x);
    RanOrHandedOn(j, forced, x);
    ReplyMeaning(j, forced, x);
  }

  lemma HandleMeaning(j: seq<Event>, forced: Forced, k: nat)
    requires Good(j, forced) && k < |j| && j[k].StageAdded? && j[k].op.Handle?
    requires Resolved(ReplayAll(j), j[k].stage) && Unforced(forced, j[k].stage)
    ensures var s := ReplayAll(j).stages; |j[k].deps| == 1 && j[k].deps[0] in s && s[j[k].deps[0]].result.Some?
    ensures InvocationStarted(j[k].stage) in j && InvocationCompleted(j[k].stage, ReplayAll(j).stages[j[k].stage].result.value) in j
  {
    hide Good, ReplayAll, StrategyOf, HandsOn;
    var x := j[k].stage;
    JournaledStage(j, forced, k);
    RunningRow(j[k].op);
    OneInput(ReplayAll(j), x, j[k].deps[0]);
    RanOrHandedOn(j, forced, x);
    ReplyMeaning(j, forced, x);
  }

  /** thenApply, thenAccept, thenRun and thenCompose ran exactly if their parent succeeded, and carry
      its failure otherwise; but for thenCompose the result of a run is a reply. */
  lemma ThenMeaning(j: seq<Event>, forced: Forced, k: nat)
    requires Good(j, forced) && k < |j| && j[k].StageAdded?
    requires j[k].op.ThenApply? || j[k].op.ThenAccept? || j[k].op.ThenRun? || j[k].op.ThenCompose?
    requires Resolved(ReplayAll(j), j[k].stage) && Unforced(forced, j[k].stage)
    ensures var s, x := ReplayAll(j).stages, j[k].stage;
            && |j[k].deps| == 1 && j[k].deps[0] in s && s[j[k].deps[0]].result.Some?
            && (InvocationStarted(x) in j <==> s[j[k].deps[0]].result.value.successful)
            && (InvocationStarted(x) !in j ==> s[x].result == s[j[k].deps[0]].result)
            && (InvocationStarted(x) in j && !j[k].op.ThenCompose? ==> InvocationCompleted(x, s[x].result.value) in j)
  {
    hide Good, ReplayAll, StrategyOf;
    var x := j[k].stage;
    JournaledStage(j, forced, k);
    ThenRow(j[k].op);
    OneInput(ReplayAll(j), x, j[k].deps[0]);
    RanOrHandedOn(j, forced, x);
    if InvocationStarted(x) in j && !j[k].op.ThenCompose? { ReplyMeaning(j, forced, x); }
  }

  /** acceptEither and applyToEither ran exactly if one of the two succeeded; if both failed they carry
      the failure of the second. */
  lemma EitherMeaning(j: seq<Event>, forced: Forced, k: nat)
    requires Good(j, forced) && k < |j| && j[k].StageAdded? && (j[k].op.AcceptEither? || j[k].op.ApplyToEither?)
    requires Resolved(ReplayAll(j), j[k].stage) && Unforced(forced, j[k].stage)
    ensures var s, x := ReplayAll(j).stages, j[k].stage;
            && |j[k].deps| == 2 && j[k].deps[0] in s && j[k].deps[1] in s
            && var a, b := s[j[k].deps[0]].result, s[j[k].deps[1]].result;
               && (InvocationStarted(x) in j <==> (a.Some? && a.value.successful) || (b.Some? && b.value.successful))
               && (InvocationStarted(x) in j ==> InvocationCompleted(x, s[x].result.value) in j)
               && (InvocationStarted(x) !in j ==> a.Some? && b.Some? && s[x].result == b)
  {
    hide Good, ReplayAll, StrategyOf;
    var x := j[k].stage;
    JournaledStage(j, forced, k);
    PairRow(j[k].op);
    EitherInput(ReplayAll(j), x, j[k].deps[0], j[k].deps[1]);
    RanOrHandedOn(j, forced, x);
    if InvocationStarted(x) in j { ReplyMeaning(j, forced, x); }
  }

  /** thenCombine and thenAcceptBoth waited for both, ran exactly if both succeeded, and otherwise carry
      the first failure. */
  lemma BothMeaning(j: seq<Event>, forced: Forced, k: nat)
    requires Good(j, forced) && k < |j| && j[k].StageAdded? && (j[k].op.ThenCombine? || j[k].op.ThenAcceptBoth?)
    requires Resolved(ReplayAll(j), j[k].stage) && Unforced(forced, j[k].stage)
    ensures var s, x := ReplayAll(j).stages, j[k].stage;
            && |j[k].deps| == 2 && j[k].deps[0] in s && j[k].deps[1] in s
            && var a, b := s[j[k].deps[0]].result, s[j[k].deps[1]].result;
               && a.Some? && b.Some?
               && (InvocationStarted(x) in j <==> a.value.successful && b.value.successful)
               && (InvocationStarted(x) in j ==> InvocationCompleted(x, s[x].result.value) in j)
               && (InvocationStarted(x) !in j ==> s[x].result == (if a.value.successful then b else a))
  {
    hide Good, ReplayAll, StrategyOf;
    var x := j[k].stage;
    JournaledStage(j, forced, k);
    PairRow(j[k].op);
    BothInputs(ReplayAll(j), x, j[k].deps[0], j[k].deps[1]);
    RanOrHandedOn(j, forced, x);
    if InvocationStarted(x) in j { ReplyMeaning(j, forced, x); }
  }

  /** exceptionally and exceptionallyCompose ran exactly if their parent failed, and carry its success
      otherwise; for exceptionally the result of a run is a reply. */
  lemma RecoveringMeaning(j: seq<Event>, forced: Forced, k: nat)
    requires Good(j, forced) && k < |j| && j[k].StageAdded? && (j[k].op.Exceptionally? || j[k].op.ExceptionallyCompose?)
    requires Resolved(ReplayAll(j), j[k].stage) && Unforced(forced, j[k].stage)
    ensures var s, x := ReplayAll(j).stages, j[k].stage;
            && |j[k].deps| == 1 && j[k].deps[0] in s && s[j[k].deps[0]].result.Some?
            && (InvocationStarted(x) in j <==> !s[j[k].deps[0]].result.value.successful)
            && (InvocationStarted(x) !in j ==> s[x].result == s[j[k].deps[0]].result)
            && (InvocationStarted(x) in j && j[k].op.Exceptionally? ==> InvocationCompleted(x, s[x].result.value) in j)
  {
    hide Good, ReplayAll, StrategyOf;
    var x := j[k].stage;
    JournaledStage(j, forced, k);
    OtherRow(j[k].op);
    OneInput(ReplayAll(j), x, j[k].deps[0]);
    RanOrHandedOn(j, forced, x);
    if InvocationStarted(x) in j && j[k].op.Exceptionally? { ReplyMeaning(j, forced, x); }
  }

  /** whenComplete and the hooks always run, and are resolved by a reply, whatever it says. */
  lemma RunsInAnyCase(j: seq<Event>, forced: Forced, k: nat)
    requires Good(j, forced) && k < |j| && j[k].StageAdded? && (j[k].op.WhenComplete? || j[k].op.TerminationHook?)
    requires Resolved(ReplayAll(j), j[k].stage) && Unforced(forced, j[k].stage)
    ensures InvocationStarted(j[k].stage) in j && exists r :: InvocationCompleted(j[k].stage, r) in j
  {
    hide Good, ReplayAll, StrategyOf, Trigger, HandsOn;
    var x := j[k].stage;
    JournaledStage(j, forced, k);
    RunsEitherWay(j[k].op);
    ResultsFollowStrategies(j, forced, x);
    var n: nat :| Answers(j, ReplayAll(j), x, ReplayAll(j).stages[x].result.value, n);
    assert j[n] == InvocationCompleted(x, j[n].result);
  }

  lemma RunsEitherWay(op: Operation)
    requires op.WhenComplete? || op.TerminationHook?
    ensures StrategyOf(op).Some? && Invokes(StrategyOf(op).value.success) && Invokes(StrategyOf(op).value.failure)
  {
  }

  /** Given values, delays and external completions never run and are resolved only from outside. */
  lemma OutsideMeaning(j: seq<Event>, forced: Forced, k: nat)
    requires Good(j, forced) && k < |j| && j[k].StageAdded?
    requires j[k].op.CompletedValue? || j[k].op.Delay? || j[k].op.ExternalCompletion?
    ensures InvocationStarted(j[k].stage) !in j
    ensures Resolved(ReplayAll(j), j[k].stage) ==> j[k].stage in forced.outside
  {
    hide Good, ReplayAll;
    var x := j[k].stage;
    JournaledStage(j, forced, k);
    if InvocationStarted(x) in j { InvokedStaysReady(j, forced, x); }
    if Resolved(ReplayAll(j), x) { UntriggeredNeedsOutside(j, forced, x); }
  }
}
