/** What becomes of the stages that were waiting for a reply when their actor died. The comment at
    graph/graph.go:274 promises that all of them are failed; here is what happens instead. */
module Restarts {
  import opened FlowModel
  import opened StageStrategy
  import opened Replay
  import opened Structure
  import opened Recovery
  import opened Cascades
  import opened Ambiguity
  import opened Confluence
  import opened Worlds
  import opened ActorSteps

  /** A start from `stored` has come to rest with journal `j`. */
  ghost predicate CameBack(stored: seq<Event>, known: Forced, lost: Option<StageId>, j: seq<Event>, forced: Forced) {
    && stored != [] && Good(stored, known) && Good(j, forced)
    && Restarted(stored, known, lost, j, ReplayAll(j), forced)
  }

  /** The same, and `c` was failed as lost. */
  ghost predicate FailedAtStart(stored: seq<Event>, known: Forced, c: StageId, j: seq<Event>, forced: Forced) {
    CameBack(stored, known, Some(c), j, forced)
  }

  /** The journal up to and with the failure, and the graph it rebuilds. */
  function UpToFailure(stored: seq<Event>, c: StageId): seq<Event> { stored + Reemitted(stored) + [LostEvent(c)] }

  lemma FailureGraph(stored: seq<Event>, known: Forced, c: StageId, j: seq<Event>, forced: Forced)
    requires FailedAtStart(stored, known, c, j, forced)
    ensures var g0, p := ReplayAll(stored), UpToFailure(stored, c);
            && Pending(g0, c) && IsReady(g0, c) && WellFormed(g0)
            && ReplayAll(p) == Complete(g0, c, StageLostResult()) && stored <= p && Good(p, forced)
            && Cascade(p, ResolvedSet(g0) + {c}, j) && Exhausted(p, ResolvedSet(g0) + {c}, j)
  {
    hide Exhausted, Cascade, Good, WellFormed, Complete, IsReady, Reemitted;
    var p := UpToFailure(stored, c);
    ReplayIsIdempotent(stored, known);
    ReplayWellFormed(stored, known);
    Append(stored + Reemitted(stored), LostEvent(c), forced);
    assert p <= j by { CascadePrefix(p, ResolvedSet(ReplayAll(stored)) + {c}, j); }
    GoodPrefix(j, |p|, forced);
    assert j[..|p|] == p;
  }

  lemma CascadePrefix(p: seq<Event>, triggered: set<StageId>, j: seq<Event>)
    requires RanDry(p, triggered, j)
    ensures p <= j
  {
  }

  /** Failing `c` fails, besides it, exactly the stages its compose chain reaches, and for good. */
  lemma FailedWithTheChosen(stored: seq<Event>, known: Forced, c: StageId, j: seq<Event>, forced: Forced, y: StageId)
    requires FailedAtStart(stored, known, c, j, forced) && Lost(ReplayAll(stored), y)
    ensures Resolved(ReplayAll(UpToFailure(stored, c)), y) <==> OnChain(ReplayAll(stored), c, y)
    ensures OnChain(ReplayAll(stored), c, y) ==> Resolved(ReplayAll(j), y) && ReplayAll(j).stages[y].result == Some(StageLostResult())
    ensures OnChain(ReplayAll(stored), c, y) ==>
              var r := ReplayAll(j).stages[y].result.value; !r.successful && r.datum.ErrorDatum? && r.datum.kind.StageLost?
  {
    hide Good, Exhausted, Cascade, Shape, FailedAtStart, IsReady, ChainPath, ReplayAll, Settle;
    var g0, p := ReplayAll(stored), UpToFailure(stored, c);
    FailureGraph(stored, known, c, j, forced);
    CompleteFacts(g0, c, StageLostResult());
    SettlesExactlyTheChain(g0, c, StageLostResult(), y);
    if OnChain(g0, c, y) {
      CascadeKeepsFrame(p, ResolvedSet(g0) + {c}, j, forced) by { assert Good(j, forced) by { GoodOf(stored, known, c, j, forced); } }
    }
  }

  lemma GoodOf(stored: seq<Event>, known: Forced, c: StageId, j: seq<Event>, forced: Forced)
    requires FailedAtStart(stored, known, c, j, forced)
    ensures Good(j, forced) && Good(stored, known)
  {
  }

  /** So the promise that all lost stages are failed is kept exactly when the compose chain of the
      chosen one reaches them all, as it does when there is no other. */
  lemma PromiseKept(stored: seq<Event>, known: Forced, c: StageId, j: seq<Event>, forced: Forced)
    requires FailedAtStart(stored, known, c, j, forced)
    ensures (forall y: StageId :: Lost(ReplayAll(stored), y) ==> Resolved(ReplayAll(UpToFailure(stored, c)), y))
            <==> (forall y: StageId :: Lost(ReplayAll(stored), y) ==> OnChain(ReplayAll(stored), c, y))
  {
    hide FailedAtStart, ReplayAll, Lost, OnChain, Resolved;
    forall y: StageId | Lost(ReplayAll(stored), y)
      ensures Resolved(ReplayAll(UpToFailure(stored, c)), y) <==> OnChain(ReplayAll(stored), c, y)
    {
      FailedWithTheChosen(stored, known, c, j, forced, y);
    }
  }

  lemma SparedPresent(g0: Graph, g: Graph, y: StageId)
    requires Extends(g0, g) && y in g0.stages
    ensures y in g.stages
  {
  }

  /** A stage that is not failed with the chosen one, just after the failure. */
  lemma SparedByFailure(stored: seq<Event>, known: Forced, c: StageId, j: seq<Event>, forced: Forced, y: StageId)
    requires FailedAtStart(stored, known, c, j, forced) && Lost(ReplayAll(stored), y) && !OnChain(ReplayAll(stored), c, y)
    ensures Pending(ReplayAll(UpToFailure(stored, c)), y) && y !in ResolvedSet(ReplayAll(stored)) + {c}
    ensures Extends(ReplayAll(stored), ReplayAll(UpToFailure(stored, c))) && Extends(ReplayAll(stored), ReplayAll(j))
  {
    hide Good, Exhausted, Cascade, WellFormed, FailedAtStart, ReplayAll, Complete, Extends, SameFrame, OnChain, UpToFailure, IsReady;
    var g0, p := ReplayAll(stored), UpToFailure(stored, c);
    GoodOf(stored, known, c, j, forced);
    FailureGraph(stored, known, c, j, forced);
    FailedWithTheChosen(stored, known, c, j, forced, y);
    ChainOfOne(g0, c);
    CascadeKeepsFrame(p, ResolvedSet(g0) + {c}, j, forced);
    CompleteKeeps(g0, c, StageLostResult());
    SparedPresent(g0, ReplayAll(p), y);
    ExtendsTransitive(g0, ReplayAll(p), ReplayAll(j));
  }

  lemma SameExec(stored: seq<Event>, known: Forced, c: StageId, j: seq<Event>, forced: Forced, y: StageId)
    requires FailedAtStart(stored, known, c, j, forced) && Lost(ReplayAll(stored), y) && !OnChain(ReplayAll(stored), c, y)
    ensures var g0, g := ReplayAll(stored), ReplayAll(j);
            IsReady(g, y) && ExecOf(g, y) == ExecOf(g0, y) && Trigger(g, y).status == Trigger(g0, y).status
  {
    hide Good, Shape, FailedAtStart, Trigger, ReplayAll, OnChain;
    SparedByFailure(stored, known, c, j, forced, y);
    FailureGraph(stored, known, c, j, forced);
    StageOf(ReplayAll(stored), y);
    ReadyStays(ReplayAll(stored), ReplayAll(j), y);
  }

  /** Resolved during the cascade, along with an inner stage of the same success. */
  ghost predicate AlongWithInner(g0: Graph, g: Graph, y: StageId) {
    Resolved(g, y) && exists i :: ComposedInto(g0, i, y) && Flag(g, i, g.stages[y].result.value.successful)
  }

  /** A spared stage that would complete at once has done so, with its own trigger's status. */
  lemma SparedCompletes(stored: seq<Event>, known: Forced, c: StageId, j: seq<Event>, forced: Forced, y: StageId)
    requires FailedAtStart(stored, known, c, j, forced) && Lost(ReplayAll(stored), y) && !OnChain(ReplayAll(stored), c, y)
    requires CompletesAtOnce(ExecOf(ReplayAll(stored), y))
    ensures Flag(ReplayAll(j), y, Trigger(ReplayAll(stored), y).status)
  {
    hide Good, WellFormed, FailedAtStart, Trigger, ReplayAll, OnChain, Cascade, Extends, Complete;
    var g0, p, g := ReplayAll(stored), UpToFailure(stored, c), ReplayAll(j);
    GoodOf(stored, known, c, j, forced);
    FailureGraph(stored, known, c, j, forced);
    SparedByFailure(stored, known, c, j, forced, y);
    SameExec(stored, known, c, j, forced, y);
    assert Resolved(g, y) by { SparedPresent(g0, g, y); }
    CascadeOrigins(p, ResolvedSet(g0) + {c}, j, forced, y);
    if i :| ComposedInto(ReplayAll(p), i, y) {
      OuterWouldRun(p, forced, i, y);
      SpareReady(g0, ReplayAll(p), y);
    }
  }

  lemma SpareReady(g0: Graph, g: Graph, y: StageId)
    requires WellFormed(g0) && Extends(g0, g) && IsReady(g0, y)
    ensures IsReady(g, y) && ExecOf(g, y) == ExecOf(g0, y)
  {
    hide WellFormed;
    StageOf(g0, y);
    ReadyStays(g0, g, y);
  }

  /** A spared stage that would run its closure runs it, or is resolved along with an inner stage. */
  lemma SparedRuns(stored: seq<Event>, known: Forced, c: StageId, j: seq<Event>, forced: Forced, y: StageId)
    requires FailedAtStart(stored, known, c, j, forced) && Lost(ReplayAll(stored), y) && !OnChain(ReplayAll(stored), c, y)
    requires Invokes(ExecOf(ReplayAll(stored), y)) && UpToFailure(stored, c) <= j
    ensures (Pending(ReplayAll(j), y) && InvocationStarted(y) in j[|UpToFailure(stored, c)|..]) || AlongWithInner(ReplayAll(stored), ReplayAll(j), y)
  {
    hide Good, WellFormed, FailedAtStart, Trigger, ReplayAll, OnChain, Cascade, Extends, Complete, UpToFailure;
    var g0, p, g := ReplayAll(stored), UpToFailure(stored, c), ReplayAll(j);
    GoodOf(stored, known, c, j, forced);
    FailureGraph(stored, known, c, j, forced);
    SparedByFailure(stored, known, c, j, forced, y);
    SameExec(stored, known, c, j, forced, y);
    SparedPresent(g0, g, y);
    if Resolved(g, y) {
      CascadeOrigins(p, ResolvedSet(g0) + {c}, j, forced, y);
      var i :| ComposedInto(ReplayAll(p), i, y) && Flag(g, i, g.stages[y].result.value.successful);
      SameReferences(g0, c, i, y);
    }
  }

  lemma SameReferences(g0: Graph, c: StageId, i: StageId, y: StageId)
    requires WellFormed(g0) && c in g0.stages && ComposedInto(Complete(g0, c, StageLostResult()), i, y)
    ensures ComposedInto(g0, i, y)
  {
    hide Shape;
    CompleteFacts(g0, c, StageLostResult());
  }

  /** A spared function call stays pending and is not started again. */
  lemma SparedFunctionWaits(stored: seq<Event>, known: Forced, c: StageId, j: seq<Event>, forced: Forced, y: StageId)
    requires FailedAtStart(stored, known, c, j, forced) && Lost(ReplayAll(stored), y) && !OnChain(ReplayAll(stored), c, y)
    requires ExecOf(ReplayAll(stored), y).CompleteExternally? && UpToFailure(stored, c) <= j
    ensures Pending(ReplayAll(j), y) && InvocationStarted(y) !in j[|UpToFailure(stored, c)|..]
  {
    hide Good, KeysOk, ChainOk, RefsOk, LifecycleOk, ComposeClosed, FailedAtStart, Trigger, ReplayAll, OnChain, Cascade, Complete, UpToFailure;
    var g0, p := ReplayAll(stored), UpToFailure(stored, c);
    GoodOf(stored, known, c, j, forced);
    FailureGraph(stored, known, c, j, forced);
    SparedByFailure(stored, known, c, j, forced, y);
    StageOf(g0, y);
    CascadeSpares(p, ResolvedSet(g0) + {c}, j, forced, y);
  }

  /** An invocation in this generation started after the failure, and of a stage pending then. */
  lemma StartedAfterFailure(stored: seq<Event>, known: Forced, c: StageId, j: seq<Event>, forced: Forced, y: StageId)
    requires FailedAtStart(stored, known, c, j, forced) && UpToFailure(stored, c) <= j && InvocationStarted(y) in j[|stored|..]
    ensures InvocationStarted(y) in j[|UpToFailure(stored, c)|..]
    ensures !Resolved(ReplayAll(UpToFailure(stored, c)), y)
  {
    hide FailedAtStart, ReplayAll, Good, Reemitted;
    var p := UpToFailure(stored, c);
    GoodOf(stored, known, c, j, forced);
    ReplayOnlyEchoes(stored, known);
    forall i | |stored| <= i < |p| ensures j[i].StageCompleted? {
      assert j[i] == p[i];
      if i < |p| - 1 { assert p[i] == Reemitted(stored)[i - |stored|]; }
    }
    var k :| |stored| <= k < |j| && j[k] == InvocationStarted(y);
    GoodAt(j, k, forced);
    assert j[..k][..|p|] == p;
    ReplayExtends(j[..k], |p|, forced);
  }

  /** Whoever was started was to run its closure, or calls a function. */
  lemma StartedWouldRun(stored: seq<Event>, known: Forced, c: StageId, j: seq<Event>, forced: Forced, y: StageId)
    requires FailedAtStart(stored, known, c, j, forced) && Lost(ReplayAll(stored), y) && !OnChain(ReplayAll(stored), c, y)
    requires InvocationStarted(y) in j
    ensures !CompletesAtOnce(ExecOf(ReplayAll(stored), y))
  {
    hide FailedAtStart, ReplayAll, Good, OnChain, Trigger, KeysOk, ChainOk, RefsOk, LifecycleOk, ComposeClosed;
    GoodOf(stored, known, c, j, forced);
    SameExec(stored, known, c, j, forced, y);
    InvokedStaysReady(j, forced, y);
    ReplayWellFormed(j, forced);
    StageOf(ReplayAll(j), y);
  }

  /** What became of the lost stage `y` when `c` was chosen to be failed. */
  ghost predicate Fate(g0: Graph, c: StageId, y: StageId, w: World)
    requires IsReady(g0, y) && y in w.graph.stages
  {
    var run := ExecOf(g0, y);
    if OnChain(g0, c, y) then
      w.graph.stages[y].result == Some(StageLostResult()) && !Requested(w, y)
    else if run.CompleteExternally? then
      Pending(w.graph, y) && !Requested(w, y)
    else if CompletesAtOnce(run) then
      Flag(w.graph, y, Trigger(g0, y).status) && !Requested(w, y)
    else
      (Pending(w.graph, y) && Requested(w, y)) || AlongWithInner(g0, w.graph, y)
  }

  lemma FateOfChain(stored: seq<Event>, known: Forced, c: StageId, w: World, forced: Forced, y: StageId)
    requires FailedAtStart(stored, known, c, w.journal, forced) && Rest(w, forced) && w.base == |stored|
    requires Lost(ReplayAll(stored), y) && OnChain(ReplayAll(stored), c, y) && UpToFailure(stored, c) <= w.journal
    ensures y in w.graph.stages && w.graph.stages[y].result == Some(StageLostResult()) && !Requested(w, y)
  {
    hide FailedAtStart, ReplayAll, Good, OnChain, Requested, UpToFailure, IsReady, Fixpoint, LifecycleRest, FlagsExcept, ToldOk, RequestsOk;
    FailedWithTheChosen(stored, known, c, w.journal, forced, y);
    RequestedExactly(w, y);
    if Requested(w, y) { StartedAfterFailure(stored, known, c, w.journal, forced, y); }
  }

  lemma FateOfSpared(stored: seq<Event>, known: Forced, c: StageId, w: World, forced: Forced, y: StageId)
    requires FailedAtStart(stored, known, c, w.journal, forced) && Rest(w, forced) && w.base == |stored|
    requires Lost(ReplayAll(stored), y) && !OnChain(ReplayAll(stored), c, y) && UpToFailure(stored, c) <= w.journal
    ensures y in w.graph.stages && Fate(ReplayAll(stored), c, y, w)
  {
    hide FailedAtStart, ReplayAll, Good, OnChain, Requested, UpToFailure, Trigger;
    hide Fixpoint, LifecycleRest, FlagsExcept, ToldOk, RequestsOk, AlongWithInner, Extends;
    SparedByFailure(stored, known, c, w.journal, forced, y);
    SparedPresent(ReplayAll(stored), w.graph, y);
    RequestedExactly(w, y);
    if Requested(w, y) {
      StartedAfterFailure(stored, known, c, w.journal, forced, y);
      StartedWouldRun(stored, known, c, w.journal, forced, y);
    }
    var run := ExecOf(ReplayAll(stored), y);
    if run.CompleteExternally? {
      SparedFunctionWaits(stored, known, c, w.journal, forced, y);
    } else if CompletesAtOnce(run) {
      SparedCompletes(stored, known, c, w.journal, forced, y);
    } else {
      SparedRuns(stored, known, c, w.journal, forced, y);
      if !AlongWithInner(ReplayAll(stored), w.graph, y) { RequestedLater(w, stored, c, y); }
    }
  }

  lemma RequestedLater(w: World, stored: seq<Event>, c: StageId, y: StageId)
    requires RequestsOk(w) && w.base == |stored| && UpToFailure(stored, c) <= w.journal
    requires InvocationStarted(y) in w.journal[|UpToFailure(stored, c)|..]
    ensures Requested(w, y)
  {
    hide RequestsOk, Requested;
    RequestedExactly(w, y);
    SuffixOfSuffix(stored, UpToFailure(stored, c), w.journal, InvocationStarted(y));
  }

  /** The exact fate of every lost stage: those that the compose chain of the chosen one reaches, it
      included, end as lost; of the others, a function call stays pending and is never asked for
      again, a stage that completes at once does so by its own trigger, and any other stage runs
      again or is resolved along with a stage composed into it. */
  lemma LostStageFate(stored: seq<Event>, known: Forced, c: StageId, w: World, forced: Forced, y: StageId)
    requires FailedAtStart(stored, known, c, w.journal, forced) && Rest(w, forced) && w.base == |stored|
    requires Lost(ReplayAll(stored), y)
    ensures y in w.graph.stages && Fate(ReplayAll(stored), c, y, w)
  {
    hide Good, ReplayAll, Rest, IsReady, OnChain, Requested, Exhausted;
    CascadePrefix(UpToFailure(stored, c), ResolvedSet(ReplayAll(stored)) + {c}, w.journal);
    if OnChain(ReplayAll(stored), c, y) {
      FateOfChain(stored, known, c, w, forced, y);
    } else {
      FateOfSpared(stored, known, c, w, forced, y);
    }
  }

  lemma FunctionNotOnChain(j: seq<Event>, forced: Forced, c: StageId, y: StageId)
    requires Good(j, forced) && y in ReplayAll(j).stages && ReplayAll(j).stages[y].operation.InvokeFunction? && OnChain(ReplayAll(j), c, y)
    ensures y == c
  {
    hide Good, ReplayAll, KeysOk, ChainOk, LifecycleOk, ComposeClosed, OnChain;
    if y != c {
      ReplayWellFormed(j, forced);
      StageOf(ReplayAll(j), y);
      ChainEndsComposed(ReplayAll(j), c, y);
    }
  }

  /** A lost stage is left pending with nobody asked to run it exactly if it calls a function and
      was not the one chosen to be failed. */
  lemma LeftUnasked(stored: seq<Event>, known: Forced, c: StageId, w: World, forced: Forced, y: StageId)
    requires FailedAtStart(stored, known, c, w.journal, forced) && Rest(w, forced) && w.base == |stored|
    requires Lost(ReplayAll(stored), y)
    ensures Pending(w.graph, y) && !Requested(w, y) <==> ReplayAll(stored).stages[y].operation.InvokeFunction? && y != c
  {
    hide Good, ReplayAll, Rest, Trigger, OnChain, Requested, FailedAtStart, KeysOk, ChainOk, RefsOk, LifecycleOk, ComposeClosed;
    var g0 := ReplayAll(stored);
    GoodOf(stored, known, c, w.journal, forced);
    LostStageFate(stored, known, c, w, forced, y);
    ReplayWellFormed(stored, known);
    StageOf(g0, y);
    if g0.stages[y].operation.InvokeFunction? && OnChain(g0, c, y) { FunctionNotOnChain(stored, known, c, y); }
    if y == c { ChainOfOne(g0, c); }
    if g0.stages[y].strategy.trigger.TriggerNever? { NeverReady(g0, y); }
  }

  // ----- Two starts from the same journal -----

  /** The journal when the cascade of a start begins, and the stages triggered by then. */
  function StartJournal(stored: seq<Event>, lost: Option<StageId>): seq<Event> {
    if lost.Some? then UpToFailure(stored, lost.value) else stored + Reemitted(stored)
  }

  function StartTriggered(stored: seq<Event>, lost: Option<StageId>): set<StageId> {
    ResolvedSet(ReplayAll(stored)) + (if lost.Some? then {lost.value} else {})
  }

  function StartForced(known: Forced, lost: Option<StageId>): Forced {
    if lost.Some? then AlsoLost(known, lost.value) else known
  }

  /** A start is a dry run from there. */
  lemma CameBackIsDry(stored: seq<Event>, known: Forced, lost: Option<StageId>, j: seq<Event>, forced: Forced)
    requires CameBack(stored, known, lost, j, forced)
    ensures forced == StartForced(known, lost)
    ensures Dry(StartJournal(stored, lost), StartTriggered(stored, lost), forced, j)
  {
    hide Good, ReplayAll, Reemitted, Exhausted, Cascade, IsReady;
    assert ResolvedSet(ReplayAll(stored)) + {} == ResolvedSet(ReplayAll(stored));
  }

  lemma UnambiguousStays(g: Graph, g': Graph)
    requires Unambiguous(g) && SameFrame(g, g') && Extends(g, g')
    ensures Unambiguous(g')
  {
    forall a: StageId, b: StageId, o: StageId | ComposedInto(g', a, o) && ComposedInto(g', b, o) && Pending(g', o) ensures a == b {
      assert ComposedInto(g, a, o) && ComposedInto(g, b, o);
      PendingAtStart(g, g', o);
    }
  }

  lemma CompleteKeepsFrame(g: Graph, x: StageId, r: Result)
    requires WellFormed(g) && x in g.stages
    ensures SameFrame(g, Complete(g, x, r)) && Extends(g, Complete(g, x, r))
  {
    hide Shape, Complete;
    CompleteFacts(g, x, r);
    OnlyResultsSkeleton(g, Complete(g, x, r));
  }

  /** Neither what a replay writes nor the one failure makes compose references ambiguous. */
  lemma StartUnambiguous(stored: seq<Event>, known: Forced, lost: Option<StageId>, j: seq<Event>, forced: Forced)
    requires CameBack(stored, known, lost, j, forced) && Unambiguous(ReplayAll(stored))
    ensures Unambiguous(ReplayAll(StartJournal(stored, lost)))
  {
    hide Unambiguous, Good, ReplayAll, Reemitted, SameFrame, Extends, Complete, WellFormed, IsReady, Exhausted, Cascade;
    ReplayIsIdempotent(stored, known);
    if lost.Some? {
      FailureGraph(stored, known, lost.value, j, forced);
      CompleteKeepsFrame(ReplayAll(stored), lost.value, StageLostResult());
      UnambiguousStays(ReplayAll(stored), ReplayAll(StartJournal(stored, lost)));
    }
  }

  lemma StartExtends(stored: seq<Event>, lost: Option<StageId>)
    ensures stored <= StartJournal(stored, lost)
  {
  }

  /** Two starts from the same journal that fail the same stage, or none, have the same outcome, in
      whatever orders they go through the stages; and they request the same stages, but for
      those that are resolved along with a stage composed into them. */
  lemma RestartsAgree(
    stored: seq<Event>, known: Forced, lost: Option<StageId>, w1: World, f1: Forced, w2: World, f2: Forced)
    requires Rest(w1, f1) && CameBack(stored, known, lost, w1.journal, f1) && w1.base == |stored|
    requires Rest(w2, f2) && CameBack(stored, known, lost, w2.journal, f2) && w2.base == |stored|
    requires Unambiguous(ReplayAll(stored))
    ensures SameOutcome(w1.graph, w2.graph)
    ensures forall x: StageId :: !ResolvedFromInside(StartJournal(stored, lost), w1.graph, x) ==> (Requested(w1, x) <==> Requested(w2, x))
  {
    hide Unambiguous, Good, ReplayAll, SameOutcome, Requested, RequestsOk, Exhausted, Cascade, ResolvedFromInside, CameBack, StartJournal, StartTriggered;
    hide FlagsExcept, ToldOk, Fixpoint, LifecycleRest;
    var p, t := StartJournal(stored, lost), StartTriggered(stored, lost);
    CameBackIsDry(stored, known, lost, w1.journal, f1);
    CameBackIsDry(stored, known, lost, w2.journal, f2);
    StartUnambiguous(stored, known, lost, w1.journal, f1);
    OrderIndependence(p, t, w1.journal, f1, w2.journal, f2);
    StartExtends(stored, lost);
    CascadeExtends(p, t, w1.journal);
    CascadeExtends(p, t, w2.journal);
    forall x: StageId | !ResolvedFromInside(p, w1.graph, x) ensures Requested(w1, x) <==> Requested(w2, x) {
      SameRequests(w1, w2, p, x);
    }
  }

  /** A dry run after the failure is a start. */
  lemma DryIsFailedStart(stored: seq<Event>, known: Forced, c: StageId, j: seq<Event>)
    requires stored != [] && Good(stored, known) && Lost(ReplayAll(stored), c)
    requires Dry(UpToFailure(stored, c), StartTriggered(stored, Some(c)), AlsoLost(known, c), j)
    ensures FailedAtStart(stored, known, c, j, AlsoLost(known, c))
  {
    hide Good, ReplayAll, Reemitted, Exhausted, Cascade, IsReady;
  }

  /** All starts that fail `c` have the same outcome if and only if no pass after the failure can
      come to a race. */
  lemma RestartsAgreeExactly(stored: seq<Event>, known: Forced, c: StageId)
    requires stored != [] && Good(stored, known) && Lost(ReplayAll(stored), c)
    ensures (forall j1, j2 :: FailedAtStart(stored, known, c, j1, AlsoLost(known, c)) && FailedAtStart(stored, known, c, j2, AlsoLost(known, c)) ==>
               SameOutcome(ReplayAll(j1), ReplayAll(j2)))
            <==> RaceFree(UpToFailure(stored, c), StartTriggered(stored, Some(c)), AlsoLost(known, c))
  {
    hide Good, ReplayAll, Lost, Dry, SameOutcome, UpToFailure, StartTriggered, RaceFree, FailedAtStart;
    var p, t, f := UpToFailure(stored, c), StartTriggered(stored, Some(c)), AlsoLost(known, c);
    forall j ensures FailedAtStart(stored, known, c, j, f) <==> Dry(p, t, f, j) {
      if FailedAtStart(stored, known, c, j, f) { FailedIsDry(stored, known, c, j); }
      if Dry(p, t, f, j) { DryIsFailedStart(stored, known, c, j); }
    }
    OutcomeFixedExactly(p, t, f);
  }

  lemma FailedIsDry(stored: seq<Event>, known: Forced, c: StageId, j: seq<Event>)
    requires FailedAtStart(stored, known, c, j, AlsoLost(known, c))
    ensures Dry(UpToFailure(stored, c), StartTriggered(stored, Some(c)), AlsoLost(known, c), j)
  {
    hide Good, ReplayAll, Reemitted, Exhausted, Cascade, IsReady;
    CameBackIsDry(stored, known, Some(c), j, AlsoLost(known, c));
  }
}
