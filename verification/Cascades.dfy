/** What one message sets off. The order in which the stages map is iterated decides the order of
    the events of a cascade; while no pending stage has two inner ones, it does not decide who is
    resolved or who succeeds, nor, but for stages resolved from inside, who runs. */
module Cascades {
  import opened FlowModel
  import opened StageStrategy
  import opened Replay
  import opened Structure
  import opened Recovery

  /** An event the graph emits by itself, given the stages already triggered before the cascade:
      a stage completed or invoked by its trigger, the echo of a composed stage completed with its
      inner one, or a lifecycle step. */
  predicate Synchronous(j: seq<Event>, triggered: set<StageId>, e: Event) {
    var g := ReplayAll(j);
    match e
    case StageCompleted(x, r) => if Pending(g, x) then x !in triggered && CompletedByTrigger(g, x, r) else Echo(g, e)
    case InvocationStarted(x) => x !in triggered && IsReady(g, x) && Invokes(ExecOf(g, x))
    case GraphTerminating(_) => true
    case GraphCompleted => true
    case _ => false
  }

  /** Who is invoked is triggered from then on: nobody is invoked twice after `p`. */
  predicate StartsOnce(p: seq<Event>, j: seq<Event>) {
    forall k, n :: |p| <= k < n < |j| && j[k].InvocationStarted? ==> j[n] != j[k]
  }

  /** Everything journaled after `p` was emitted synchronously. */
  predicate Cascade(p: seq<Event>, triggered: set<StageId>, j: seq<Event>) {
    p <= j && StartsOnce(p, j) && forall k :: |p| <= k < |j| ==> Synchronous(j[..k], triggered, j[k])
  }

  lemma CascadeRefl(p: seq<Event>, triggered: set<StageId>)
    ensures Cascade(p, triggered, p)
  {
  }

  lemma CascadeExtends(p: seq<Event>, triggered: set<StageId>, j: seq<Event>)
    requires Cascade(p, triggered, j)
    ensures p <= j
  {
  }

  lemma CascadeSnoc(p: seq<Event>, triggered: set<StageId>, j: seq<Event>, e: Event)
    requires Cascade(p, triggered, j) && Synchronous(j, triggered, e) && (e.InvocationStarted? ==> e !in j[|p|..])
    ensures Cascade(p, triggered, j + [e])
  {
    hide Synchronous;
    var j' := j + [e];
    forall k, n | |p| <= k < n < |j'| && j'[k].InvocationStarted? ensures j'[n] != j'[k] {
      if n == |j| { assert j[|p|..][k - |p|] == j'[k]; }
    }
    forall k | |p| <= k < |j'| ensures Synchronous(j'[..k], triggered, j'[k]) {
      if k < |j| { assert j'[..k] == j[..k]; } else { assert j'[..k] == j; }
    }
  }

  lemma CascadeTransitive(p: seq<Event>, t: set<StageId>, m: seq<Event>, t': set<StageId>, j: seq<Event>)
    requires Cascade(p, t, m) && Cascade(m, t', j) && t <= t'
    requires forall x: StageId :: InvocationStarted(x) in m[|p|..] ==> x in t'
    ensures Cascade(p, t, j)
  {
    forall k, n | |p| <= k < n < |j| && j[k].InvocationStarted? ensures j[n] != j[k] {
      if k < |m| <= n {
        assert m[|p|..][k - |p|] == InvocationStarted(j[k].stage);
        assert Synchronous(j[..n], t', j[n]);
      }
    }
    forall k | |p| <= k < |j| ensures Synchronous(j[..k], t, j[k]) {
      if k < |m| {
        assert j[..k] == m[..k] && j[k] == m[k];
      } else {
        assert Synchronous(j[..k], t', j[k]);
      }
    }
  }

  lemma CascadeInit(p: seq<Event>, triggered: set<StageId>, j: seq<Event>)
    requires Cascade(p, triggered, j) && |p| < |j|
    ensures Cascade(p, triggered, Init(j)) && Synchronous(Init(j), triggered, Last(j))
  {
    var m := Init(j);
    forall k | |p| <= k < |m| ensures Synchronous(m[..k], triggered, m[k]) {
      assert m[..k] == j[..k];
      assert Synchronous(j[..k], triggered, j[k]);
    }
    assert Synchronous(j[..|j| - 1], triggered, j[|j| - 1]);
  }

  /** A cascade neither adds, rewires nor composes stages. */
  ghost predicate SameFrame(g: Graph, g': Graph) {
    && SameSkeleton(g, g')
    && forall x :: x in g.stages ==> g'.stages[x].composeReference == g.stages[x].composeReference
  }

  lemma FrameRefl(g: Graph)
    ensures SameFrame(g, g) && Extends(g, g)
  {
  }

  lemma FrameStep(g0: Graph, g: Graph, e: Event)
    requires SameFrame(g0, g) && ComposeClosed(g)
    requires e.StageCompleted? || e.InvocationStarted? || e.GraphTerminating? || e.GraphCompleted?
    ensures SameFrame(g0, Apply(g, e))
  {
    hide Settle, ResolvedUpChain, ClosedExcept;
    if e.StageCompleted? && e.stage in g.stages { CompleteFacts(g, e.stage, e.result); }
  }

  lemma {:induction false} CascadeKeepsFrame(p: seq<Event>, triggered: set<StageId>, j: seq<Event>, forced: Forced)
    requires Good(j, forced) && Cascade(p, triggered, j)
    ensures SameFrame(ReplayAll(p), ReplayAll(j)) && Extends(ReplayAll(p), ReplayAll(j))
    decreases |j|
  {
    hide SameFrame, Extends, Shape, Apply, IsReady, CompletedByTrigger, Justified;
    if |j| == |p| {
      assert j == p;
      FrameRefl(ReplayAll(p));
    } else {
      CascadeInit(p, triggered, j);
      CascadeKeepsFrame(p, triggered, Init(j), forced);
      ReplayWellFormed(Init(j), forced);
      ApplyKeeps(Init(j), Last(j));
      ExtendsTransitive(ReplayAll(p), ReplayAll(Init(j)), ReplayAll(j));
      FrameStep(ReplayAll(p), ReplayAll(Init(j)), Last(j));
    }
  }

  /** Strategies under which no trigger ever completes or invokes a stage. */
  predicate Passive(s: Strategy) {
    && (s.trigger.TriggerNever? || (s.success.CompleteExternally? && s.failure.CompleteExternally?))
    && !s.resultHandling.ReferencedStageResult?
  }

  lemma CompletionSpares(g: Graph, y: StageId, r: Result, x: StageId)
    requires RefsOk(g) && ComposeClosed(g) && y in g.stages && Pending(g, x) && Passive(g.stages[x].strategy)
    requires Pending(g, y) ==> CompletedByTrigger(g, y, r)
    ensures Pending(Complete(g, y, r), x)
  {
    CompleteFacts(g, y, r);
  }

  /** A passive stage is neither resolved nor invoked by a cascade. */
  lemma {:induction false} CascadeSpares(p: seq<Event>, triggered: set<StageId>, j: seq<Event>, forced: Forced, x: StageId)
    requires Good(j, forced) && Cascade(p, triggered, j)
    requires Pending(ReplayAll(p), x) && Passive(ReplayAll(p).stages[x].strategy)
    ensures Pending(ReplayAll(j), x) && ReplayAll(j).stages[x].strategy == ReplayAll(p).stages[x].strategy
    ensures InvocationStarted(x) !in j[|p|..]
    decreases |j|
  {
    hide KeysOk, StagesOk, ChainOk, LifecycleOk, Justified, ResolvedUpChain, Settle;
    if j != p {
      CascadeInit(p, triggered, j);
      CascadeSpares(p, triggered, Init(j), forced, x);
      assert j[|p|..] == Init(j)[|p|..] + [Last(j)];
      ReplayWellFormed(Init(j), forced);
      if Last(j).StageCompleted? {
        CompletionSpares(ReplayAll(Init(j)), Last(j).stage, Last(j).result, x);
        CompleteFacts(ReplayAll(Init(j)), Last(j).stage, Last(j).result);
      }
    }
  }

  // ----- Cascades that have run their course -----

  /** Nothing is left to do: whoever is pending and ready and was not triggered before waits for a
      reply, asked for if it runs a closure, and no lifecycle step is due. */
  ghost predicate Exhausted(p: seq<Event>, triggered: set<StageId>, j: seq<Event>)
    requires p <= j
  {
    var g := ReplayAll(j);
    && (forall x: StageId :: Pending(g, x) && IsReady(g, x) && x !in triggered ==>
          && !CompletesAtOnce(ExecOf(g, x))
          && (Invokes(ExecOf(g, x)) ==> InvocationStarted(x) in j[|p|..]))
    && (g.state.Committed? ==> PendingIn(g, MainPhase) != {})
    && (g.state.Terminating? ==> PendingIn(g, TerminationPhase) != {})
  }

  /** Every pending stage composed with another one has already been triggered. */
  ghost predicate OutersTriggered(g: Graph, triggered: set<StageId>) {
    forall i: StageId, o: StageId :: ComposedInto(g, i, o) && Pending(g, o) ==> o in triggered
  }

  /** No pending stage waits for two different inner stages. */
  ghost predicate Unambiguous(g: Graph) {
    forall a: StageId, b: StageId, o: StageId :: ComposedInto(g, a, o) && ComposedInto(g, b, o) && Pending(g, o) ==> a == b
  }

  /** The reply names a stage for its own stage to compose with. */
  predicate NamesInner(e: Event) { e.InvocationCompleted? && e.result.successful && e.result.datum.StageRefDatum? }

  /** No stage, however often it was run and answered, was given two different stages to compose with. */
  predicate OneInner(j: seq<Event>) {
    forall a, b :: 0 <= a < b < |j| && NamesInner(j[a]) && NamesInner(j[b]) && j[a].stage == j[b].stage ==>
      j[a].result.datum == j[b].result.datum
  }

  /** No stage was answered twice. */
  predicate RepliedOnce(j: seq<Event>) {
    forall a, b :: 0 <= a < b < |j| && j[a].InvocationCompleted? && j[b].InvocationCompleted? ==> j[a].stage != j[b].stage
  }

  /** Whoever was answered at most once was given at most one stage. */
  lemma RepliedOnceMeansOneInner(j: seq<Event>)
    requires RepliedOnce(j)
    ensures OneInner(j)
  {
  }

  /** Then compose references are unambiguous. */
  lemma OneInnerIsUnambiguous(j: seq<Event>, forced: Forced)
    requires Good(j, forced) && OneInner(j)
    ensures Unambiguous(ReplayAll(j))
  {
    var g := ReplayAll(j);
    forall a: StageId, b: StageId, o: StageId | ComposedInto(g, a, o) && ComposedInto(g, b, o) ensures a == b {
      var k := ReferenceWasReplied(j, forced, a, o);
      var n := ReferenceWasReplied(j, forced, b, o);
      assert NamesInner(j[k]) && NamesInner(j[n]);
    }
  }

  predicate Flag(g: Graph, x: StageId, ok: bool) {
    Resolved(g, x) && g.stages[x].result.value.successful == ok
  }

  /** How a stage got resolved during a cascade. */
  ghost predicate Origin(g0: Graph, triggered: set<StageId>, g: Graph, x: StageId)
    requires Resolved(g, x)
  {
    || (x !in triggered && IsReady(g, x) && CompletesAtOnce(ExecOf(g, x)) && Flag(g, x, Trigger(g, x).status))
    || exists i :: ComposedInto(g0, i, x) && Flag(g, i, g.stages[x].result.value.successful)
  }

  lemma OriginStays(g0: Graph, triggered: set<StageId>, g: Graph, g': Graph, x: StageId)
    requires WellFormed(g) && Extends(g, g') && Resolved(g, x) && Origin(g0, triggered, g, x)
    ensures Resolved(g', x) && Origin(g0, triggered, g', x)
  {
    if i :| ComposedInto(g0, i, x) && Flag(g, i, g.stages[x].result.value.successful) {
      assert Flag(g', i, g'.stages[x].result.value.successful);
    } else {
      assert StageOk(g, x);
      ReadyStays(g, g', x);
    }
  }

  lemma OriginOfTarget(g0: Graph, triggered: set<StageId>, g: Graph, g': Graph, x: StageId, r: Result)
    requires WellFormed(g) && Extends(g, g') && x !in triggered && CompletedByTrigger(g, x, r)
    requires Resolved(g', x) && g'.stages[x].result == Some(r)
    ensures Origin(g0, triggered, g', x)
  {
    assert StageOk(g, x);
    ImmediateFollowsStatus(g.stages[x].operation, g.stages[x].strategy, DependencyResults(g, g.stages[x].dependencies));
    ReadyStays(g, g', x);
  }

  /** Whoever a completion newly resolves is its target or composed with another such stage. */
  lemma OriginOfNew(g0: Graph, triggered: set<StageId>, g: Graph, y: StageId, r: Result, x: StageId)
    requires WellFormed(g) && SameFrame(g0, g) && Pending(g, y) && y !in triggered && CompletedByTrigger(g, y, r)
    requires Extends(g, Complete(g, y, r)) && Pending(g, x) && Resolved(Complete(g, y, r), x)
    ensures Origin(g0, triggered, Complete(g, y, r), x)
  {
    hide Shape, Settle, CompletedByTrigger, Trigger, Extends;
    var g' := Complete(g, y, r);
    CompleteFacts(g, y, r);
    if x == y {
      OriginOfTarget(g0, triggered, g, g', x, r);
    } else {
      var i :| ComposedInto(g, i, x) && Pending(g, i) && Resolved(g', i);
      assert ComposedInto(g0, i, x) && Flag(g', i, r.successful);
    }
  }

  lemma {:induction false} CascadeOrigins(p: seq<Event>, triggered: set<StageId>, j: seq<Event>, forced: Forced, x: StageId)
    requires Good(j, forced) && Cascade(p, triggered, j) && Pending(ReplayAll(p), x) && Resolved(ReplayAll(j), x)
    ensures Origin(ReplayAll(p), triggered, ReplayAll(j), x)
    decreases |j|
  {
    hide Shape, Origin, Extends, SameFrame, Complete, Trigger, IsReady, Justified;
    if j != p {
      var g0, g, g' := ReplayAll(p), ReplayAll(Init(j)), ReplayAll(j);
      CascadeInit(p, triggered, j);
      CascadeKeepsFrame(p, triggered, Init(j), forced);
      ReplayWellFormed(Init(j), forced);
      ApplyKeeps(Init(j), Last(j));
      if Resolved(g, x) {
        CascadeOrigins(p, triggered, Init(j), forced, x);
        OriginStays(g0, triggered, g, g', x);
      } else {
        FramePending(g0, g, x);
        ResolvedOnlyByCompletion(g, Last(j), x);
        OriginOfNew(g0, triggered, g, Last(j).stage, Last(j).result, x);
      }
    }
  }

  lemma FramePending(g0: Graph, g: Graph, x: StageId)
    requires SameFrame(g0, g) && x in g0.stages && !Resolved(g, x)
    ensures Pending(g, x)
  {
  }

  /** Of the events of a cascade only the completion of a pending stage resolves anybody. */
  lemma ResolvedOnlyByCompletion(g: Graph, e: Event, x: StageId)
    requires WellFormed(g) && Pending(g, x) && Resolved(Apply(g, e), x)
    requires e.StageCompleted? || e.InvocationStarted? || e.GraphTerminating? || e.GraphCompleted?
    ensures e.StageCompleted? && Pending(g, e.stage) && Apply(g, e) == Complete(g, e.stage, e.result)
  {
    hide Shape;
    if e.StageCompleted? && e.stage in g.stages { CompleteFacts(g, e.stage, e.result); }
  }

  // ----- One run never gets ahead of the other's end -----

  /** Nobody composed with another stage would complete at once. */
  lemma OuterWouldRun(j: seq<Event>, forced: Forced, i: StageId, y: StageId)
    requires Good(j, forced) && ComposedInto(ReplayAll(j), i, y)
    ensures IsReady(ReplayAll(j), y) && !CompletesAtOnce(ExecOf(ReplayAll(j), y))
  {
    hide Good, KeysOk, ChainOk, LifecycleOk, ComposeClosed, ReplayAll, Trigger;
    OuterWasInvoked(j, forced, i, y);
    InvokedStaysReady(j, forced, y);
    ReplayWellFormed(j, forced);
    StageOf(ReplayAll(j), y);
  }

  /** Nor does it at the end of a cascade: so it was resolved along with an inner stage. */
  lemma OuterHasInner(p: seq<Event>, triggered: set<StageId>, j: seq<Event>, forced: Forced, i: StageId, o: StageId)
    requires Good(j, forced) && Cascade(p, triggered, j) && ComposedInto(ReplayAll(p), i, o)
    ensures IsReady(ReplayAll(j), o) && !CompletesAtOnce(ExecOf(ReplayAll(j), o))
  {
    hide Good, Shape, Cascade, ReplayAll, Trigger;
    CascadeKeepsFrame(p, triggered, j, forced);
    OuterWouldRun(j, forced, i, o);
  }

  /** Whatever `g` has decided, `f` has decided alike. */
  ghost predicate Dominates(f: Graph, g: Graph) {
    && (forall x: StageId :: Resolved(g, x) ==> Flag(f, x, g.stages[x].result.value.successful))
    && Rank(g.state) <= Rank(f.state)
  }

  lemma ReadyInBoth(f: Graph, g: Graph, x: StageId)
    requires Dominates(f, g) && SameSkeleton(g, f) && LifecycleOk(f) && LifecycleOk(g) && IsReady(g, x)
    ensures IsReady(f, x) && Trigger(f, x).status == Trigger(g, x).status && ExecOf(f, x) == ExecOf(g, x)
  {
    var a := DependencyResults(g, g.stages[x].dependencies);
    var b := DependencyResults(f, f.stages[x].dependencies);
    forall i | 0 <= i < |a| && a[i].Some? ensures b[i].Some? && b[i].value.successful == a[i].value.successful {
      var d := g.stages[x].dependencies[i];
      if d.On? { assert Resolved(g, d.stage); assert Flag(f, d.stage, g.stages[d.stage].result.value.successful); }
    }
    StatusIsFixed(g.stages[x].strategy.trigger, a, b);
  }

  /** The end of the other run, with the facts the comparison needs. */
  ghost predicate OtherEnd(p: seq<Event>, triggered: set<StageId>, j: seq<Event>, forced: Forced) {
    && Good(j, forced) && Cascade(p, triggered, j) && Exhausted(p, triggered, j)
    && Unambiguous(ReplayAll(p))
  }

  lemma TargetInBoth(p: seq<Event>, triggered: set<StageId>, j: seq<Event>, forced: Forced, g: Graph, x: StageId, r: Result)
    requires OtherEnd(p, triggered, j, forced) && WellFormed(g) && SameFrame(ReplayAll(p), g)
    requires Dominates(ReplayAll(j), g) && Pending(ReplayAll(p), x) && x !in triggered && CompletedByTrigger(g, x, r)
    ensures Flag(ReplayAll(j), x, r.successful)
  {
    var f := ReplayAll(j);
    CascadeKeepsFrame(p, triggered, j, forced);
    ReplayWellFormed(j, forced);
    ReadyInBoth(f, g, x);
    assert StageOk(g, x);
    ImmediateFollowsStatus(g.stages[x].operation, g.stages[x].strategy, DependencyResults(g, g.stages[x].dependencies));
    assert !Pending(f, x);
    CascadeOrigins(p, triggered, j, forced, x);
    if i :| ComposedInto(ReplayAll(p), i, x) { OuterHasInner(p, triggered, j, forced, i, x); }
  }

  lemma {:induction false} ChainInBoth(p: seq<Event>, triggered: set<StageId>, j: seq<Event>, forced: Forced, path: seq<StageId>, n: nat, ok: bool)
    requires OtherEnd(p, triggered, j, forced) && n < |path|
    requires ChainPath(ReplayAll(p), path[0], path[|path| - 1], path) && Flag(ReplayAll(j), path[0], ok)
    ensures Flag(ReplayAll(j), path[n], ok)
  {
    if n > 0 {
      var g0, f := ReplayAll(p), ReplayAll(j);
      var i, o := path[n - 1], path[n];
      ChainInBoth(p, triggered, j, forced, path, n - 1, ok);
      CascadeKeepsFrame(p, triggered, j, forced);
      ReplayWellFormed(j, forced);
      assert ComposedInto(g0, path[n - 1], path[n - 1 + 1]);
      assert ComposedInto(f, i, o);
      assert Pending(g0, o);
      CascadeOrigins(p, triggered, j, forced, o);
      OuterHasInner(p, triggered, j, forced, i, o);
      var i' :| ComposedInto(g0, i', o) && Flag(f, i', f.stages[o].result.value.successful);
    }
  }

  lemma PendingAtStart(g0: Graph, g: Graph, x: StageId)
    requires SameFrame(g0, g) && Extends(g0, g) && Pending(g, x)
    ensures Pending(g0, x)
  {
  }

  lemma PathAtStart(g0: Graph, g: Graph, x: StageId, y: StageId, path: seq<StageId>)
    requires SameFrame(g0, g) && Extends(g0, g) && ChainPath(g, x, y, path)
    ensures ChainPath(g0, x, y, path)
  {
    forall i | 0 <= i < |path| ensures Pending(g0, path[i]) { assert Pending(g, path[i]); }
    forall i | 0 <= i < |path| - 1 ensures ComposedInto(g0, path[i], path[i + 1]) { assert ComposedInto(g, path[i], path[i + 1]); }
  }

  lemma CompletionInBoth(p: seq<Event>, triggered: set<StageId>, j: seq<Event>, forced: Forced, g: Graph, x: StageId, r: Result)
    requires OtherEnd(p, triggered, j, forced) && WellFormed(g) && SameFrame(ReplayAll(p), g) && Extends(ReplayAll(p), g)
    requires Dominates(ReplayAll(j), g) && Pending(g, x) && x !in triggered && CompletedByTrigger(g, x, r)
    ensures Dominates(ReplayAll(j), Complete(g, x, r))
  {
    hide Shape, OtherEnd, Extends, SameFrame, CompletedByTrigger;
    var f := ReplayAll(j);
    var g' := Complete(g, x, r);
    PendingAtStart(ReplayAll(p), g, x);
    TargetInBoth(p, triggered, j, forced, g, x, r);
    CompleteFacts(g, x, r);
    forall y: StageId | Resolved(g', y) ensures Flag(f, y, g'.stages[y].result.value.successful) {
      if Pending(g, y) {
        var path := SettledHasPath(g, x, r, y);
        PathAtStart(ReplayAll(p), g, x, y, path);
        ChainInBoth(p, triggered, j, forced, path, |path| - 1, r.successful);
      } else {
        assert Flag(f, y, g.stages[y].result.value.successful);
      }
    }
  }

  lemma LifecycleInBoth(p: seq<Event>, triggered: set<StageId>, j: seq<Event>, forced: Forced, g: Graph, phase: Phase)
    requires OtherEnd(p, triggered, j, forced) && SameFrame(ReplayAll(p), g) && Dominates(ReplayAll(j), g)
    ensures PendingIn(ReplayAll(j), phase) <= PendingIn(g, phase)
  {
    var f := ReplayAll(j);
    CascadeKeepsFrame(p, triggered, j, forced);
    forall x | x in PendingIn(f, phase) ensures x in PendingIn(g, phase) {
      assert !Resolved(g, x);
    }
  }

  lemma AgreementStep(p: seq<Event>, triggered: set<StageId>, m: seq<Event>, f1: Forced, e: Event, j: seq<Event>, f2: Forced)
    requires Good(m, f1) && Cascade(p, triggered, m) && OtherEnd(p, triggered, j, f2)
    requires Admissible(m, e) && Synchronous(m, triggered, e) && Dominates(ReplayAll(j), ReplayAll(m))
    ensures Dominates(ReplayAll(j), Apply(ReplayAll(m), e))
  {
    hide Good, Cascade, SameFrame, Shape, Extends;
    CascadeKeepsFrame(p, triggered, m, f1);
    ReplayWellFormed(m, f1);
    var g := ReplayAll(m);
    match e
    case StageCompleted(x, r) =>
      if Pending(g, x) { CompletionInBoth(p, triggered, j, f2, g, x, r); } else { CompleteFacts(g, x, r); }
    case GraphTerminating(_) => LifecycleInBoth(p, triggered, j, f2, g, MainPhase);
    case GraphCompleted => LifecycleInBoth(p, triggered, j, f2, g, TerminationPhase);
    case InvocationStarted(_) =>
  }

  /** At every point of one cascade, the end of any other cascade from the same start agrees
      with what has been decided so far. */
  lemma {:induction false} CascadesAgreeSoFar(p: seq<Event>, triggered: set<StageId>, j1: seq<Event>, f1: Forced, j2: seq<Event>, f2: Forced)
    requires Good(j1, f1) && Cascade(p, triggered, j1) && OtherEnd(p, triggered, j2, f2)
    ensures Dominates(ReplayAll(j2), ReplayAll(j1))
    decreases |j1|
  {
    if |j1| == |p| {
      assert j1 == p;
      CascadeKeepsFrame(p, triggered, j2, f2);
    } else {
      CascadeInit(p, triggered, j1);
      CascadesAgreeSoFar(p, triggered, Init(j1), f1, j2, f2);
      AgreementStep(p, triggered, Init(j1), f1, Last(j1), j2, f2);
    }
  }

  /** Two ends of a cascade that agree on everything but the data of results. */
  ghost predicate SameOutcome(a: Graph, b: Graph) {
    && a.stages.Keys == b.stages.Keys && a.state == b.state && a.terminationRoot == b.terminationRoot
    && (forall x: StageId, ok: bool :: Flag(a, x, ok) <==> Flag(b, x, ok))
    && (forall x: StageId :: IsReady(a, x) <==> IsReady(b, x))
  }

  lemma CascadeAt(p: seq<Event>, triggered: set<StageId>, j: seq<Event>, k: nat)
    requires Cascade(p, triggered, j) && |p| <= k < |j|
    ensures Cascade(p, triggered, j[..k]) && Synchronous(j[..k], triggered, j[k])
  {
    hide Synchronous;
    var m := j[..k];
    forall n | |p| <= n < |m| ensures Synchronous(m[..n], triggered, m[n]) {
      assert m[..n] == j[..n];
      assert Synchronous(j[..n], triggered, j[n]);
    }
  }

  lemma MutualDominance(a: Graph, b: Graph)
    requires Dominates(a, b) && Dominates(b, a) && SameSkeleton(a, b) && LifecycleOk(a) && LifecycleOk(b)
    ensures SameOutcome(a, b)
  {
    hide IsReady, Trigger;
    assert SameSkeleton(b, a);
    forall x: StageId ensures IsReady(a, x) <==> IsReady(b, x) {
      if IsReady(a, x) { ReadyInBoth(b, a, x); }
      if IsReady(b, x) { ReadyInBoth(a, b, x); }
    }
  }

  lemma FramesAgree(g0: Graph, a: Graph, b: Graph)
    requires SameFrame(g0, a) && SameFrame(g0, b)
    ensures SameSkeleton(a, b)
  {
  }

  /** The cascade from `p` that ends in `f` may or may not invoke `x` again: another stage is
      composed into it, and it is resolved by the end. */
  ghost predicate ResolvedFromInside(p: seq<Event>, f: Graph, x: StageId) {
    !Pending(f, x) && exists i :: ComposedInto(ReplayAll(p), i, x)
  }

  /** Whoever a cascade invokes was pending and not triggered when it began, and runs its closure. */
  lemma StartedUntriggered(p: seq<Event>, triggered: set<StageId>, j: seq<Event>, forced: Forced, x: StageId)
    requires Good(j, forced) && Cascade(p, triggered, j) && InvocationStarted(x) in j[|p|..]
    ensures x !in triggered && Pending(ReplayAll(p), x)
    ensures IsReady(ReplayAll(j), x) && Invokes(ExecOf(ReplayAll(j), x))
  {
    hide Good, Cascade, KeysOk, ChainOk, RefsOk, LifecycleOk, ComposeClosed, Trigger, Justified, Extends, SameFrame;
    CascadeExtends(p, triggered, j);
    var k :| |p| <= k < |j| && j[k] == InvocationStarted(x);
    CascadeAt(p, triggered, j, k);
    GoodAt(j, k, forced);
    CascadeKeepsFrame(p, triggered, j[..k], forced);
    PendingAtStart(ReplayAll(p), ReplayAll(j[..k]), x);
    ReplayWellFormed(j[..k], forced);
    StageOf(ReplayAll(j[..k]), x);
    ReplayExtends(j, k, forced);
    ReadyStays(ReplayAll(j[..k]), ReplayAll(j), x);
  }

  /** Nobody composed is invoked by a cascade that found all pending outer stages triggered. */
  lemma OuterNotStarted(p: seq<Event>, triggered: set<StageId>, j: seq<Event>, forced: Forced, g: Graph, x: StageId)
    requires Good(j, forced) && Cascade(p, triggered, j) && OutersTriggered(ReplayAll(p), triggered) && ResolvedFromInside(p, g, x)
    ensures InvocationStarted(x) !in j[|p|..]
  {
    hide Good, Cascade;
    CascadeExtends(p, triggered, j);
    if InvocationStarted(x) in j[|p|..] { StartedUntriggered(p, triggered, j, forced, x); }
  }

  lemma OutcomesAgree(p: seq<Event>, triggered: set<StageId>, j1: seq<Event>, f1: Forced, j2: seq<Event>, f2: Forced)
    requires OtherEnd(p, triggered, j1, f1) && OtherEnd(p, triggered, j2, f2)
    ensures SameOutcome(ReplayAll(j1), ReplayAll(j2))
  {
    hide Good, Cascade, Exhausted, KeysOk, StagesOk, ChainOk, RefsOk, LifecycleOk, ComposeClosed, Dominates, SameFrame, SameOutcome, Extends;
    CascadesAgreeSoFar(p, triggered, j1, f1, j2, f2);
    CascadesAgreeSoFar(p, triggered, j2, f2, j1, f1);
    CascadeKeepsFrame(p, triggered, j1, f1);
    CascadeKeepsFrame(p, triggered, j2, f2);
    ReplayWellFormed(j1, f1);
    ReplayWellFormed(j2, f2);
    FramesAgree(ReplayAll(p), ReplayAll(j1), ReplayAll(j2));
    MutualDominance(ReplayAll(j1), ReplayAll(j2));
  }

  lemma SamePending(a: Graph, b: Graph, x: StageId)
    requires SameOutcome(a, b)
    ensures Pending(a, x) <==> Pending(b, x)
  {
    if Resolved(a, x) { assert Flag(a, x, a.stages[x].result.value.successful); }
    if Resolved(b, x) { assert Flag(b, x, b.stages[x].result.value.successful); }
  }

  lemma ResolvedAlike(p: seq<Event>, a: Graph, b: Graph, x: StageId)
    requires SameOutcome(a, b)
    ensures ResolvedFromInside(p, a, x) <==> ResolvedFromInside(p, b, x)
  {
    hide SameOutcome;
    SamePending(a, b, x);
  }

  lemma SameExecAtEnds(p: seq<Event>, triggered: set<StageId>, j1: seq<Event>, f1: Forced, j2: seq<Event>, f2: Forced, x: StageId)
    requires Good(j1, f1) && Cascade(p, triggered, j1) && Good(j2, f2) && Cascade(p, triggered, j2)
    requires SameOutcome(ReplayAll(j1), ReplayAll(j2)) && IsReady(ReplayAll(j1), x)
    ensures IsReady(ReplayAll(j2), x) && ExecOf(ReplayAll(j2), x) == ExecOf(ReplayAll(j1), x)
    ensures Trigger(ReplayAll(j2), x).status == Trigger(ReplayAll(j1), x).status
  {
    hide Good, Cascade, Trigger, KeysOk, StagesOk, ChainOk, RefsOk, LifecycleOk, ComposeClosed, SameFrame, SameSkeleton, Extends, ReplayAll;
    var a, b := ReplayAll(j1), ReplayAll(j2);
    CascadeKeepsFrame(p, triggered, j1, f1);
    CascadeKeepsFrame(p, triggered, j2, f2);
    FramesAgree(ReplayAll(p), a, b);
    ReplayWellFormed(j1, f1);
    ReplayWellFormed(j2, f2);
    ReadyInBoth(b, a, x);
  }

  /** Whoever one run invokes, another of the same outcome invokes, or resolves from inside. */
  lemma InvokedInBoth(p: seq<Event>, triggered: set<StageId>, j1: seq<Event>, f1: Forced, j2: seq<Event>, f2: Forced, x: StageId)
    requires Good(j1, f1) && Cascade(p, triggered, j1) && SameOutcome(ReplayAll(j1), ReplayAll(j2))
    requires Good(j2, f2) && Cascade(p, triggered, j2) && Exhausted(p, triggered, j2)
    requires InvocationStarted(x) in j1[|p|..] && !ResolvedFromInside(p, ReplayAll(j2), x)
    ensures InvocationStarted(x) in j2[|p|..]
  {
    hide Good, Cascade, Trigger, KeysOk, StagesOk, ChainOk, RefsOk, ComposeClosed;
    var a, b := ReplayAll(j1), ReplayAll(j2);
    StartedUntriggered(p, triggered, j1, f1, x);
    SameExecAtEnds(p, triggered, j1, f1, j2, f2, x);
    if Resolved(b, x) { CascadeOrigins(p, triggered, j2, f2, x); }
  }

  /** Order independence: two cascades from the same graph and the same triggered stages, run to
      exhaustion in any iteration order, resolve the same stages with the same success flags and
      reach the same lifecycle state. They invoke the same closures, except perhaps those of stages
      that are resolved along with a stage composed into them. */
  lemma OrderIndependence(p: seq<Event>, triggered: set<StageId>, j1: seq<Event>, f1: Forced, j2: seq<Event>, f2: Forced)
    requires Good(j1, f1) && Cascade(p, triggered, j1) && Exhausted(p, triggered, j1)
    requires Good(j2, f2) && Cascade(p, triggered, j2) && Exhausted(p, triggered, j2)
    requires Unambiguous(ReplayAll(p))
    ensures SameOutcome(ReplayAll(j1), ReplayAll(j2))
    ensures forall x: StageId :: !ResolvedFromInside(p, ReplayAll(j1), x) ==>
              (InvocationStarted(x) in j1[|p|..] <==> InvocationStarted(x) in j2[|p|..])
  {
    hide Good, Cascade, Exhausted, Unambiguous, SameOutcome, ResolvedFromInside;
    assert OtherEnd(p, triggered, j1, f1) && OtherEnd(p, triggered, j2, f2);
    OutcomesAgree(p, triggered, j1, f1, j2, f2);
    OutcomesAgree(p, triggered, j2, f2, j1, f1);
    CascadeExtends(p, triggered, j1);
    CascadeExtends(p, triggered, j2);
    forall x: StageId | !ResolvedFromInside(p, ReplayAll(j1), x)
      ensures InvocationStarted(x) in j1[|p|..] <==> InvocationStarted(x) in j2[|p|..]
    {
      ResolvedAlike(p, ReplayAll(j1), ReplayAll(j2), x);
      if InvocationStarted(x) in j1[|p|..] { InvokedInBoth(p, triggered, j1, f1, j2, f2, x); }
      if InvocationStarted(x) in j2[|p|..] { InvokedInBoth(p, triggered, j2, f2, j1, f1, x); }
    }
  }
}
