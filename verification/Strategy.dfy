/** graph/stage_strategy.go: when a stage triggers, what triggering it does, and the
    table that assigns these strategies to operations. */
module StageStrategy {
  import opened FlowModel

  /** What a trigger strategy answers: not yet, or ready with a status and its inputs. */
  datatype Readiness = NotReady | Ready(status: bool, inputs: seq<Result>)

  // ----- waitForAll -----

  function Values(rs: seq<Option<Result>>): (vs: seq<Result>)
    requires forall i :: 0 <= i < |rs| ==> rs[i].Some?
    ensures |vs| == |rs|
    ensures forall i :: 0 <= i < |rs| ==> vs[i] == rs[i].value
  {
    seq(|rs|, i requires 0 <= i < |rs| => rs[i].value)
  }

  predicate AllResolved(rs: seq<Option<Result>>) {
    forall i :: 0 <= i < |rs| ==> rs[i].Some?
  }

  predicate Succeeded(r: Option<Result>) { r.Some? && r.value.successful }

  predicate Failed(r: Option<Result>) { r.Some? && !r.value.successful }

  /** Every position before `k` succeeded and position `k` failed. */
  predicate FirstFailureAt(rs: seq<Option<Result>>, k: nat) {
    k < |rs| && Failed(rs[k]) && forall i :: 0 <= i < k ==> Succeeded(rs[i])
  }

  /** What `waitForAll` promises: ready exactly when every dependency is resolved, successful
      exactly when all of them succeeded, and otherwise carrying the first failure. */
  ghost predicate IsWaitForAll(rs: seq<Option<Result>>, out: Readiness) {
    && (out.Ready? <==> AllResolved(rs))
    && (out.Ready? && out.status ==> (forall i :: 0 <= i < |rs| ==> Succeeded(rs[i])) && out.inputs == Values(rs))
    && (out.Ready? && !out.status ==> exists k: nat :: FirstFailureAt(rs, k) && out.inputs == [rs[k].value])
  }

  // ----- triggerAny -----

  predicate SomeSucceeded(rs: seq<Option<Result>>) {
    exists i :: 0 <= i < |rs| && Succeeded(rs[i])
  }

  predicate AllFailed(rs: seq<Option<Result>>) {
    forall i :: 0 <= i < |rs| ==> Failed(rs[i])
  }

  /** No position before `k` succeeded and position `k` did. */
  predicate FirstSuccessAt(rs: seq<Option<Result>>, k: nat) {
    k < |rs| && Succeeded(rs[k]) && forall i :: 0 <= i < k ==> !Succeeded(rs[i])
  }

  /** What `triggerAny` does: ready with the first success in list order, or, when every one of
      at least one dependency failed, with the last failure in list order. */
  ghost predicate IsTriggerAny(rs: seq<Option<Result>>, out: Readiness) {
    && (out.Ready? <==> SomeSucceeded(rs) || (|rs| > 0 && AllFailed(rs)))
    && (out.Ready? && out.status ==> exists k: nat :: FirstSuccessAt(rs, k) && out.inputs == [rs[k].value])
    && (out.Ready? && !out.status ==> |rs| > 0 && AllFailed(rs) && out.inputs == [rs[|rs| - 1].value])
  }

  // ----- The strategies as functions -----

  function FirstFailed(rs: seq<Option<Result>>): (k: nat)
    ensures k <= |rs|
    ensures forall i :: 0 <= i < k ==> !Failed(rs[i])
    ensures k < |rs| ==> Failed(rs[k])
  {
    if |rs| == 0 || Failed(rs[0]) then 0 else 1 + FirstFailed(rs[1..])
  }

  function FirstSucceeded(rs: seq<Option<Result>>): (k: nat)
    ensures k <= |rs|
    ensures forall i :: 0 <= i < k ==> !Succeeded(rs[i])
    ensures k < |rs| ==> Succeeded(rs[k])
  {
    if |rs| == 0 || Succeeded(rs[0]) then 0 else 1 + FirstSucceeded(rs[1..])
  }

  function WaitAll(rs: seq<Option<Result>>): (out: Readiness)
    ensures IsWaitForAll(rs, out)
  {
    if AllResolved(rs) then
      var k := FirstFailed(rs);
      if k < |rs| then
        assert FirstFailureAt(rs, k);
        Ready(false, [rs[k].value])
      else
        Ready(true, Values(rs))
    else NotReady
  }

  function AnyOne(rs: seq<Option<Result>>): (out: Readiness)
    ensures IsTriggerAny(rs, out)
  {
    var k := FirstSucceeded(rs);
    if k < |rs| then
      assert FirstSuccessAt(rs, k);
      Ready(true, [rs[k].value])
    else if |rs| > 0 && AllFailed(rs) then
      Ready(false, [rs[|rs| - 1].value])
    else NotReady
  }

  function Evaluate(kind: TriggerKind, rs: seq<Option<Result>>): (out: Readiness) {
    match kind
    case WaitForAll => WaitAll(rs)
    case TriggerAny => AnyOne(rs)
    case TriggerNever => NotReady
  }

  // ----- The loops of the source -----

  /** graph/stage_strategy.go:15. */
  method WaitForAllLoop(rs: seq<Option<Result>>) returns (out: Readiness)
    ensures IsWaitForAll(rs, out)
    ensures out == WaitAll(rs)
  {
    var results: seq<Result> := [];
    for n := 0 to |rs|
      invariant |results| <= n
      invariant |results| == n <==> AllResolved(rs[..n])
      invariant |results| == n ==> forall i :: 0 <= i < n ==> results[i] == rs[i].value
    {
      if rs[n].Some? { results := results + [rs[n].value]; }
    }
    assert rs[..|rs|] == rs;
    if |results| == |rs| {
      for n := 0 to |rs|
        invariant forall i :: 0 <= i < n ==> Succeeded(rs[i])
      {
        if Failed(rs[n]) {
          assert FirstFailureAt(rs, n);
          return Ready(false, [rs[n].value]);
        }
      }
      return Ready(true, results);
    }
    return NotReady;
  }

  /** graph/stage_strategy.go:37. */
  method TriggerAnyLoop(rs: seq<Option<Result>>) returns (out: Readiness)
    ensures IsTriggerAny(rs, out)
    ensures out == AnyOne(rs)
  {
    if |rs| == 0 { return NotReady; }
    var haveUnresolved := false;
    var lastFailure: Option<Result> := None;
    for n := 0 to |rs|
      invariant forall i :: 0 <= i < n ==> !Succeeded(rs[i])
      invariant haveUnresolved <==> exists i :: 0 <= i < n && rs[i].None?
      invariant n > 0 && !haveUnresolved ==> lastFailure == rs[n - 1]
    {
      if rs[n].Some? {
        if !Failed(rs[n]) {
          assert FirstSuccessAt(rs, n);
          return Ready(true, [rs[n].value]);
        }
        lastFailure := rs[n];
      } else {
        haveUnresolved := true;
      }
    }
    if !haveUnresolved {
      return Ready(false, [lastFailure.value]);
    }
    return NotReady;
  }

  /** The comment promises the first failure: that is what is handed on exactly when it equals the last. */
  lemma FirstFailureExactly(rs: seq<Option<Result>>)
    requires |rs| > 0 && AllFailed(rs)
    ensures AnyOne(rs).Ready? && !AnyOne(rs).status
    ensures AnyOne(rs).inputs == [rs[0].value] <==> rs[0] == rs[|rs| - 1]
  {
    assert !Succeeded(rs[0]);
  }

  /** Two different failures, of which not the first is handed on. */
  lemma SecondFailureIsHandedOn()
    ensures var a, b := Result(false, EmptyDatum), StageLostResult();
            a != b && AnyOne([Some(a), Some(b)]) == Ready(false, [b])
  {
    var rs := [Some(Result(false, EmptyDatum)), Some(StageLostResult())];
    assert AllFailed(rs);
    FirstFailureExactly(rs);
  }

  // ----- Statuses depend on flags only and never change once given -----

  /** `later` keeps every result `earlier` already has. */
  predicate Keeps(earlier: seq<Option<Result>>, later: seq<Option<Result>>) {
    |earlier| == |later| && forall i :: 0 <= i < |earlier| && earlier[i].Some? ==> later[i] == earlier[i]
  }

  /** Each dependency resolved in `a` is resolved in `b` with the same success flag. */
  predicate SameFlags(a: seq<Option<Result>>, b: seq<Option<Result>>) {
    |a| == |b| && forall i :: 0 <= i < |a| && a[i].Some? ==> b[i].Some? && b[i].value.successful == a[i].value.successful
  }

  /** Once a stage is ready its status is fixed, whatever else resolves later. */
  lemma StatusIsFixed(kind: TriggerKind, a: seq<Option<Result>>, b: seq<Option<Result>>)
    requires SameFlags(a, b) && Evaluate(kind, a).Ready?
    ensures Evaluate(kind, b).Ready? && Evaluate(kind, b).status == Evaluate(kind, a).status
  {
    match kind
    case WaitForAll =>
      var k := FirstFailed(a);
      if k < |a| { assert Failed(b[k]); } else { assert forall i :: 0 <= i < |b| ==> Succeeded(b[i]); }
    case TriggerAny =>
      var k := FirstSucceeded(a);
      if k < |a| { assert Succeeded(b[k]); } else { assert Failed(b[0]); }
    case TriggerNever =>
  }

  // ----- Execution strategies -----

  function Exec(s: Strategy, status: bool): ExecKind { if status then s.success else s.failure }

  predicate Invokes(k: ExecKind) {
    k.InvokeWithoutArgs? || k.InvokeWithResult? || k.InvokeWithResultOrError?
  }

  predicate CompletesAtOnce(k: ExecKind) { k.SucceedWithEmpty? || k.PropagateResult? }

  predicate NeedsSingleInput(k: ExecKind) { k.InvokeWithResultOrError? || k.PropagateResult? }

  /** The arguments handed to the executor. */
  function Arguments(k: ExecKind, inputs: seq<Result>): (args: seq<Result>)
    requires Invokes(k)
    requires NeedsSingleInput(k) ==> |inputs| == 1
    ensures k.InvokeWithoutArgs? ==> args == []
    ensures k.InvokeWithResult? ==> args == inputs
    ensures k.InvokeWithResultOrError? ==>
              && |args| == 2
              && args[if inputs[0].successful then 0 else 1] == inputs[0]
              && args[if inputs[0].successful then 1 else 0] == EmptyResult()
  {
    if k.InvokeWithoutArgs? then []
    else if k.InvokeWithResult? then inputs
    else if inputs[0].successful then [Result(true, inputs[0].datum), EmptyResult()]
    else [EmptyResult(), Result(false, inputs[0].datum)]
  }

  /** The result of a stage whose strategy completes it at once. */
  function Immediate(k: ExecKind, inputs: seq<Result>): (r: Result)
    requires CompletesAtOnce(k)
    requires NeedsSingleInput(k) ==> |inputs| == 1
  {
    if k.SucceedWithEmpty? then EmptyResult() else inputs[0]
  }

  // ----- The operation table (graph/stage_strategy.go:182) -----

  function StrategyOf(op: Operation): Option<Strategy> {
    match op
    case AcceptEither => Some(Strategy(true, true, 2, 2, TriggerAny, InvokeWithResult, PropagateResult, InvocationResult))
    case ApplyToEither => Some(Strategy(true, true, 2, 2, TriggerAny, InvokeWithResult, PropagateResult, InvocationResult))
    case ThenAcceptBoth => Some(Strategy(true, true, 2, 2, WaitForAll, InvokeWithResult, PropagateResult, InvocationResult))
    case ThenApply => Some(Strategy(true, true, 1, 1, TriggerAny, InvokeWithResult, PropagateResult, InvocationResult))
    case ThenRun => Some(Strategy(true, true, 1, 1, TriggerAny, InvokeWithoutArgs, PropagateResult, InvocationResult))
    case ThenAccept => Some(Strategy(true, true, 1, 1, TriggerAny, InvokeWithResult, PropagateResult, InvocationResult))
    case ThenCompose => Some(Strategy(true, true, 1, 1, TriggerAny, InvokeWithResult, PropagateResult, ReferencedStageResult))
    case ThenCombine => Some(Strategy(true, true, 2, 2, WaitForAll, InvokeWithResult, PropagateResult, InvocationResult))
    case WhenComplete => Some(Strategy(true, true, 1, 1, TriggerAny, InvokeWithResultOrError, InvokeWithResultOrError, ParentStageResult))
    case Handle => Some(Strategy(true, true, 1, 1, TriggerAny, InvokeWithResultOrError, InvokeWithResultOrError, InvocationResult))
    case Supply => Some(Strategy(true, true, 0, 0, WaitForAll, InvokeWithoutArgs, PropagateResult, InvocationResult))
    case InvokeFunction => Some(Strategy(true, false, 0, 0, WaitForAll, CompleteExternally, CompleteExternally, InvocationResult))
    case CompletedValue => Some(Strategy(true, false, 0, 0, TriggerNever, CompleteExternally, PropagateResult, NoResultStrategy))
    case Delay => Some(Strategy(true, false, 0, 0, TriggerNever, CompleteExternally, CompleteExternally, NoResultStrategy))
    case AllOf => Some(Strategy(true, false, -1, 0, WaitForAll, SucceedWithEmpty, PropagateResult, NoResultStrategy))
    case AnyOf => Some(Strategy(true, false, -1, 1, TriggerAny, PropagateResult, PropagateResult, NoResultStrategy))
    case ExternalCompletion => Some(Strategy(true, false, 0, 0, TriggerNever, CompleteExternally, CompleteExternally, NoResultStrategy))
    case Exceptionally => Some(Strategy(true, true, 1, 1, TriggerAny, PropagateResult, InvokeWithResult, InvocationResult))
    case TerminationHook => Some(Strategy(false, true, 0, 0, WaitForAll, InvokeWithResult, InvokeWithResult, ParentStageResult))
    case ExceptionallyCompose => Some(Strategy(true, true, 1, 1, TriggerAny, PropagateResult, InvokeWithResult, ReferencedStageResult))
    case UnknownOperation => None
  }

  predicate ArityOk(s: Strategy, n: nat) {
    s.minDependencies <= n && (s.maxDependencies >= 0 ==> n <= s.maxDependencies)
  }

  /** What the rest of the development relies on about every row of the table: a strategy that
      takes a single input is only paired with a trigger that yields one, a stage completed by
      its parent's result has exactly one parent, and only invoked functions wait for an outside
      reply without invoking a closure. */
  predicate RowOk(op: Operation, s: Strategy) {
    && (s.trigger.WaitForAll? ==> !NeedsSingleInput(s.success))
    && !s.failure.SucceedWithEmpty?
    && (s.resultHandling.ParentStageResult? && !op.TerminationHook? ==> s.minDependencies == 1 && s.maxDependencies == 1)
    && (s.resultHandling.ParentStageResult? ==> Invokes(s.success) && Invokes(s.failure))
    && (s.resultHandling.NoResultStrategy? ==> !Invokes(s.success) && !Invokes(s.failure))
    && (op.InvokeFunction? <==> !s.trigger.TriggerNever? && s.success.CompleteExternally?)
    && (op.InvokeFunction? ==> s.failure.CompleteExternally? && s.resultHandling.InvocationResult?)
    && (s.failure.CompleteExternally? && !s.trigger.TriggerNever? ==> op.InvokeFunction?)
    && (s.trigger.TriggerNever? ==> s.resultHandling.NoResultStrategy?)
    && (op.TerminationHook? ==> s.trigger.WaitForAll? && Invokes(s.success) && Invokes(s.failure) && s.resultHandling.ParentStageResult?)
  }

  lemma TableRowsOk(op: Operation)
    requires StrategyOf(op).Some?
    ensures RowOk(op, StrategyOf(op).value)
  {
  }

  /** No single-input strategy is ever handed anything but one input. */
  lemma SingleInput(op: Operation, s: Strategy, rs: seq<Option<Result>>)
    requires RowOk(op, s) && Evaluate(s.trigger, rs).Ready?
    ensures var out := Evaluate(s.trigger, rs);
            NeedsSingleInput(Exec(s, out.status)) ==> |out.inputs| == 1
  {
  }

  /** A stage that completes at once succeeds exactly when its trigger did, and a propagated
      result is one of its dependencies' results. */
  lemma ImmediateFollowsStatus(op: Operation, s: Strategy, rs: seq<Option<Result>>)
    requires RowOk(op, s) && Evaluate(s.trigger, rs).Ready?
    requires CompletesAtOnce(Exec(s, Evaluate(s.trigger, rs).status))
    ensures var out := Evaluate(s.trigger, rs);
            var k := Exec(s, out.status);
            && (NeedsSingleInput(k) ==> |out.inputs| == 1)
            && Immediate(k, out.inputs).successful == out.status
            && (k.PropagateResult? ==> exists i :: 0 <= i < |rs| && rs[i] == Some(Immediate(k, out.inputs)))
  {
    SingleInput(op, s, rs);
    var out := Evaluate(s.trigger, rs);
    var k := Exec(s, out.status);
    if k.PropagateResult? {
      if s.trigger.WaitForAll? {
        var i: nat :| FirstFailureAt(rs, i) && out.inputs == [rs[i].value];
        assert rs[i] == Some(out.inputs[0]);
      } else if out.status {
        var i: nat :| FirstSuccessAt(rs, i) && out.inputs == [rs[i].value];
        assert rs[i] == Some(out.inputs[0]);
      } else {
        assert Failed(rs[|rs| - 1]);
        assert rs[|rs| - 1] == Some(out.inputs[0]);
      }
    }
  }
}
