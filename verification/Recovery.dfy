/** Compose chains, and what replaying a journal writes back to it: `OnCompleteStage` persists
    even while recovering (actor/graph.go:431), so every replayed chain is journaled again. */
module Recovery {
  import opened FlowModel
  import opened Replay
  import opened Structure

  // ----- Exactly the chain above a completed stage is settled -----

  /** A path of pending stages from `x` to `y`, each composed into the next. */
  predicate ChainPath(g: Graph, x: StageId, y: StageId, path: seq<StageId>) {
    && path != [] && path[0] == x && path[|path| - 1] == y
    && (forall i :: 0 <= i < |path| ==> Pending(g, path[i]))
    && (forall i :: 0 <= i < |path| - 1 ==> ComposedInto(g, path[i], path[i + 1]))
  }

  /** The compose chain of `x` reaches `y`. */
  ghost predicate OnChain(g: Graph, x: StageId, y: StageId) { exists path :: ChainPath(g, x, y, path) }

  lemma ChainOfOne(g: Graph, c: StageId)
    requires Pending(g, c)
    ensures OnChain(g, c, c)
  {
    assert ChainPath(g, c, c, [c]);
  }

  lemma ChainEndsComposed(g: Graph, c: StageId, y: StageId)
    requires OnChain(g, c, y) && y != c
    ensures exists i :: ComposedInto(g, i, y)
  {
    var path :| ChainPath(g, c, y, path);
    assert ComposedInto(g, path[|path| - 2], path[|path| - 2 + 1]);
  }

  /** Chains join. */
  lemma ChainsJoin(g: Graph, x: StageId, z: StageId, y: StageId)
    requires OnChain(g, x, z) && OnChain(g, z, y)
    ensures OnChain(g, x, y)
  {
    var a :| ChainPath(g, x, z, a);
    var b :| ChainPath(g, z, y, b);
    var path := a + b[1..];
    forall i | 0 <= i < |path| - 1 ensures ComposedInto(g, path[i], path[i + 1]) {
      if i < |a| - 1 {
        assert ComposedInto(g, a[i], a[i + 1]);
      } else {
        assert ComposedInto(g, b[i - |a| + 1], b[i - |a| + 1 + 1]);
      }
    }
    assert ChainPath(g, x, y, path);
  }

  lemma {:induction false} PathIsSettled(g: Graph, x: StageId, r: Result, path: seq<StageId>, n: nat)
    requires Pending(g, x) && ClosedExcept(g, Some(x)) && n < |path| && ChainPath(g, x, path[|path| - 1], path)
    ensures Resolved(Settle(g, x, r), path[n]) && Settle(g, x, r).stages[path[n]].result == Some(r)
  {
    var g' := Settle(g, x, r);
    SettleFacts(g, x, r);
    if n > 0 {
      PathIsSettled(g, x, r, path, n - 1);
      assert ComposedInto(g, path[n - 1], path[n - 1 + 1]);
      assert ComposedInto(g', path[n - 1], path[n]);
      assert Pending(g, path[n]);
    }
  }

  lemma {:induction false} SettledHasPath(g: Graph, x: StageId, r: Result, y: StageId) returns (path: seq<StageId>)
    requires Pending(g, x) && Pending(g, y) && Resolved(Settle(g, x, r), y)
    ensures ChainPath(g, x, y, path)
    decreases PendingSet(g)
  {
    if x == y { return [x]; }
    var g1 := SetResult(g, x, r);
    assert PendingSet(g1) == PendingSet(g) - {x};
    assert x in PendingSet(g);
    var o := NextOuter(g1, x).value;
    var rest := SettledHasPath(g1, o, r, y);
    path := [x] + rest;
    forall i | 0 <= i < |path| ensures Pending(g, path[i]) {
      if i > 0 { assert Pending(g1, rest[i - 1]); }
    }
    forall i | 0 <= i < |path| - 1 ensures ComposedInto(g, path[i], path[i + 1]) {
      if i > 0 { assert ComposedInto(g1, rest[i - 1], rest[i - 1 + 1]); }
    }
  }

  /** Completing a pending stage resolves exactly the pending stages its compose chain reaches,
      through chains of any length and cycles, all with the same result. */
  lemma SettlesExactlyTheChain(g: Graph, x: StageId, r: Result, y: StageId)
    requires Pending(g, x) && ComposeClosed(g) && Pending(g, y)
    ensures Resolved(Settle(g, x, r), y) <==> OnChain(g, x, y)
    ensures Resolved(Settle(g, x, r), y) ==> Settle(g, x, r).stages[y].result == Some(r)
  {
    SettleFacts(g, x, r);
    if Resolved(Settle(g, x, r), y) { var path := SettledHasPath(g, x, r, y); }
    if OnChain(g, x, y) {
      var path :| ChainPath(g, x, y, path);
      PathIsSettled(g, x, r, path, |path| - 1);
    }
  }

  /** Over a whole journal: when a pending stage completes, every pending stage up its compose
      chain ends with the same result. */
  lemma ComposedStagesFollow(j: seq<Event>, forced: Forced, k: nat, path: seq<StageId>, n: nat)
    requires Good(j, forced) && k < |j| && j[k].StageCompleted? && n < |path|
    requires ChainPath(ReplayAll(j[..k]), j[k].stage, path[|path| - 1], path)
    ensures Resolved(ReplayAll(j), path[n]) && ReplayAll(j).stages[path[n]].result == Some(j[k].result)
  {
    GoodAt(j, k, forced);
    ReplayWellFormed(j[..k], forced);
    var g := ReplayAll(j[..k]);
    assert Pending(g, path[0]);
    PathIsSettled(g, j[k].stage, j[k].result, path, n);
    ReplayExtends(j, k + 1, forced);
  }

  /** The same when a stage is composed with one that is already resolved: every pending stage up
      the chain from the outer one ends with the inner's result. */
  lemma ComposedWithResolvedFollow(j: seq<Event>, forced: Forced, k: nat, path: seq<StageId>, n: nat)
    requires Good(j, forced) && k < |j| && j[k].StageComposed? && n < |path|
    requires Resolved(ReplayAll(j[..k]), j[k].inner)
    requires ChainPath(SetReference(ReplayAll(j[..k]), j[k].stage, j[k].inner), j[k].stage, path[|path| - 1], path)
    ensures Resolved(ReplayAll(j), path[n])
    ensures ReplayAll(j).stages[path[n]].result == ReplayAll(j[..k]).stages[j[k].inner].result
  {
    hide KeysOk, StagesOk, ChainOk, Good, Settle;
    GoodAt(j, k, forced);
    ReplayWellFormed(j[..k], forced);
    var g := ReplayAll(j[..k]);
    var g1 := SetReference(g, j[k].stage, j[k].inner);
    SetReferenceRest(g, j[k].stage, j[k].inner);
    assert Pending(g1, path[0]);
    PathIsSettled(g1, j[k].stage, g.stages[j[k].inner].result.value, path, n);
    ReplayExtends(j, k + 1, forced);
  }

  /** In every reachable graph a stage composed with a resolved one is resolved. */
  lemma ComposeInvariant(j: seq<Event>, forced: Forced, inner: StageId, outer: StageId)
    requires Good(j, forced) && ComposedInto(ReplayAll(j), inner, outer) && Resolved(ReplayAll(j), inner)
    ensures Resolved(ReplayAll(j), outer)
  {
    ReplayWellFormed(j, forced);
  }

  /** The reference is a single field: composing a second outer stage with the same pending
      inner one makes the inner's completion pass the first outer by, exactly when the new
      chain does not lead to it. */
  lemma SecondComposeDropsFirst(g: Graph, first: StageId, second: StageId, inner: StageId, r: Result)
    requires WellFormed(g) && Pending(g, first) && Pending(g, inner) && second in g.stages
    requires ComposedInto(g, inner, first) && first != inner
    ensures var g1 := Apply(g, StageComposed(second, inner));
            && Pending(g1, first) && Pending(g1, inner)
            && (Resolved(Complete(g1, inner, r), first) <==> OnChain(g1, inner, first))
            && (first != second && Resolved(g, second) ==> Pending(Complete(g1, inner, r), first))
  {
    var g1 := Apply(g, StageComposed(second, inner));
    ComposeFacts(g, second, inner);
    SettlesExactlyTheChain(g1, inner, r, first);
    if first != second && Resolved(g, second) {
      var g2 := SetResult(g1, inner, r);
      assert NextOuter(g2, inner).None?;
    }
  }

  // ----- What replay writes again -----

  function ReemitChain(g: Graph, x: StageId, r: Result): seq<Event>
    requires Pending(g, x)
    decreases PendingSet(g)
  {
    var g1 := SetResult(g, x, r);
    assert PendingSet(g1) == PendingSet(g) - {x};
    assert x in PendingSet(g);
    var o := NextOuter(g1, x);
    if o.None? then [] else [StageCompleted(o.value, r)] + ReemitChain(g1, o.value, r)
  }

  /** The events that applying `e` persists through `OnCompleteStage`. */
  function Reemit(g: Graph, e: Event): seq<Event> {
    match e
    case StageCompleted(x, r) =>
      if x !in g.stages then []
      else if Pending(g, x) then ReemitChain(g, x, r)
      else
        var o := NextOuter(g, x);
        if o.None? then []
        else [StageCompleted(o.value, g.stages[x].result.value)] + ReemitChain(g, o.value, g.stages[x].result.value)
    case StageComposed(outer, inner) =>
      if inner in g.stages && outer in g.stages then
        var g1 := SetReference(g, outer, inner);
        if Resolved(g1, inner) && Pending(g1, outer) then
          var r := g1.stages[inner].result.value;
          [StageCompleted(outer, r)] + ReemitChain(g1, outer, r)
        else []
      else []
    case _ => []
  }

  /** Everything one replay of the whole journal persists again. */
  function Reemitted(j: seq<Event>): seq<Event> {
    if j == [] then [] else Reemitted(Init(j)) + Reemit(ReplayAll(Init(j)), Last(j))
  }

  /** `e` completes a composed outer stage with the result it already has in `g`. */
  predicate Echo(g: Graph, e: Event) {
    && e.StageCompleted? && Resolved(g, e.stage) && g.stages[e.stage].result == Some(e.result)
    && g.stages[e.stage].strategy.resultHandling.ReferencedStageResult?
  }

  predicate Echoes(g: Graph, es: seq<Event>) { forall i :: 0 <= i < |es| ==> Echo(g, es[i]) }

  lemma {:induction false} ChainEchoes(g: Graph, x: StageId, r: Result)
    requires Pending(g, x) && ClosedExcept(g, Some(x)) && RefsOk(g)
    ensures Echoes(Settle(g, x, r), ReemitChain(g, x, r))
    decreases PendingSet(g)
  {
    var g1 := SetResult(g, x, r);
    assert PendingSet(g1) == PendingSet(g) - {x};
    assert x in PendingSet(g);
    assert forall i: StageId, o: StageId :: ComposedInto(g1, i, o) ==> ComposedInto(g, i, o);
    var o := NextOuter(g1, x);
    if o.Some? {
      assert ComposedInto(g1, x, o.value);
      SettleFacts(g1, o.value, r);
      ChainEchoes(g1, o.value, r);
    }
  }

  lemma CompletionEchoes(g: Graph, x: StageId, r: Result)
    requires RefsOk(g) && ComposeClosed(g) && x in g.stages
    ensures Echoes(Complete(g, x, r), Reemit(g, StageCompleted(x, r)))
  {
    if Pending(g, x) { ChainEchoes(g, x, r); } else { CompleteFacts(g, x, r); }
  }

  lemma ComposeEchoes(g: Graph, outer: StageId, inner: StageId)
    requires RefsOk(g) && LifecycleOk(g) && ComposeClosed(g) && outer in g.stages && inner in g.stages
    requires g.stages[outer].strategy.resultHandling.ReferencedStageResult?
    ensures Echoes(Apply(g, StageComposed(outer, inner)), Reemit(g, StageComposed(outer, inner)))
  {
    var g1 := SetReference(g, outer, inner);
    SetReferenceRest(g, outer, inner);
    if Resolved(g1, inner) && Pending(g1, outer) {
      var r := g1.stages[inner].result.value;
      SettleFacts(g1, outer, r);
      ChainEchoes(g1, outer, r);
    }
  }

  lemma ReemitEchoes(j: seq<Event>, e: Event, forced: Forced)
    requires Good(j, forced) && Admissible(j, e)
    ensures Echoes(Apply(ReplayAll(j), e), Reemit(ReplayAll(j), e))
  {
    var g := ReplayAll(j);
    ReplayWellFormed(j, forced);
    match e
    case StageCompleted(x, r) => CompletionEchoes(g, x, r);
    case StageComposed(outer, inner) => ComposeEchoes(g, outer, inner);
    case _ =>
  }

  lemma EchoesStay(g: Graph, g': Graph, es: seq<Event>)
    requires Echoes(g, es) && Extends(g, g')
    ensures Echoes(g', es)
  {
  }

  /** Everything a replay writes again completes a composed outer stage with the very result
      that stage has once the replay is over. */
  lemma {:induction false} ReplayOnlyEchoes(j: seq<Event>, forced: Forced)
    requires Good(j, forced)
    ensures Echoes(ReplayAll(j), Reemitted(j))
  {
    if j != [] {
      ReplayOnlyEchoes(Init(j), forced);
      ReplayWellFormed(Init(j), forced);
      ApplyKeeps(Init(j), Last(j));
      EchoesStay(ReplayAll(Init(j)), ReplayAll(j), Reemitted(Init(j)));
      ReemitEchoes(Init(j), Last(j), forced);
    }
  }

  lemma AppendEcho(j: seq<Event>, e: Event, forced: Forced)
    requires j != [] && Good(j, forced) && Echo(ReplayAll(j), e)
    ensures Good(j + [e], forced) && ReplayAll(j + [e]) == ReplayAll(j) && Reemitted(j + [e]) == Reemitted(j)
  {
    var g := ReplayAll(j);
    ReplayWellFormed(j, forced);
    CompleteFacts(g, e.stage, e.result);
    assert StageOk(g, e.stage);
    Append(j, e, forced);
    InitLast(j, e);
    EchoReemitsNothing(g, e);
  }

  /** Echoes appended to a good journal leave it good and change nothing: neither the graph it
      rebuilds nor what its replay writes again. */
  lemma {:induction false} EchoesAreHarmless(j: seq<Event>, es: seq<Event>, forced: Forced)
    requires j != [] && Good(j, forced) && Echoes(ReplayAll(j), es)
    ensures Good(j + es, forced) && ReplayAll(j + es) == ReplayAll(j) && Reemitted(j + es) == Reemitted(j)
    decreases |es|
  {
    hide Good, ReplayAll, Reemitted;
    if es == [] {
      assert j + es == j;
    } else {
      EchoesAreHarmless(j, Init(es), forced);
      AppendEcho(j + Init(es), Last(es), forced);
      assert j + es == (j + Init(es)) + [Last(es)];
    }
  }

  lemma EchoReemitsNothing(g: Graph, e: Event)
    requires ComposeClosed(g) && Echo(g, e)
    ensures Reemit(g, e) == []
  {
    var o := NextOuter(g, e.stage);
    if o.Some? { assert ComposedInto(g, e.stage, o.value); }
  }

  // ----- Exactly what a replay writes -----

  /** The completions written for a chain are those of the stages it settles beyond its head, once each. */
  lemma {:induction false} ChainWritten(g: Graph, x: StageId, r: Result)
    requires Pending(g, x)
    ensures forall y: StageId :: StageCompleted(y, r) in ReemitChain(g, x, r) <==> y != x && Pending(g, y) && Resolved(Settle(g, x, r), y)
    ensures forall e :: e in ReemitChain(g, x, r) ==> e.StageCompleted? && e.result == r
    ensures forall i, k :: 0 <= i < k < |ReemitChain(g, x, r)| ==> ReemitChain(g, x, r)[i] != ReemitChain(g, x, r)[k]
    decreases PendingSet(g)
  {
    var g1 := SetResult(g, x, r);
    assert PendingSet(g1) == PendingSet(g) - {x};
    assert x in PendingSet(g);
    var o := NextOuter(g1, x);
    if o.Some? {
      ChainWritten(g1, o.value, r);
      var rest := ReemitChain(g1, o.value, r);
      assert ReemitChain(g, x, r) == [StageCompleted(o.value, r)] + rest;
      assert StageCompleted(o.value, r) !in rest && StageCompleted(x, r) !in rest;
      SettleKeeps(g1, o.value, r, x);
      SettleResolves(g1, o.value, r);
    }
  }

  lemma {:induction false} SettleKeeps(g: Graph, x: StageId, r: Result, y: StageId)
    requires Pending(g, x) && Resolved(g, y)
    ensures Resolved(Settle(g, x, r), y)
    decreases PendingSet(g)
  {
    var g1 := SetResult(g, x, r);
    assert PendingSet(g1) == PendingSet(g) - {x};
    assert x in PendingSet(g);
    if NextOuter(g1, x).Some? { SettleKeeps(g1, NextOuter(g1, x).value, r, y); }
  }

  lemma SettleResolves(g: Graph, x: StageId, r: Result)
    requires Pending(g, x)
    ensures Resolved(Settle(g, x, r), x)
  {
    var g1 := SetResult(g, x, r);
    if NextOuter(g1, x).Some? { SettleKeeps(g1, NextOuter(g1, x).value, r, x); }
  }

  lemma NothingNext(g: Graph, x: StageId)
    requires ComposeClosed(g) && Resolved(g, x)
    ensures NextOuter(g, x).None?
  {
    if NextOuter(g, x).Some? { assert ComposedInto(g, x, NextOuter(g, x).value); }
  }

  /** Replaying an event writes the completions of exactly the stages it resolves, but for the one it
      completes itself. */
  lemma EventWritten(g: Graph, e: Event, y: StageId, r: Result)
    requires ComposeClosed(g) && !e.GraphCreated? && (e.StageAdded? ==> e.stage !in g.stages)
    ensures StageCompleted(y, r) in Reemit(g, e) <==>
              && Pending(g, y) && Resolved(Apply(g, e), y) && Apply(g, e).stages[y].result == Some(r)
              && !(e.StageCompleted? && e.stage == y)
  {
    hide Settle, ReemitChain, ClosedExcept;
    match e
    case StageCompleted(x, q) =>
      if x in g.stages {
        CompleteFacts(g, x, q);
        if Pending(g, x) { ChainWritten(g, x, q); } else { NothingNext(g, x); }
      }
    case StageComposed(o, i) =>
      if i in g.stages && o in g.stages {
        ComposeFacts(g, o, i);
        var g1 := SetReference(g, o, i);
        if Resolved(g1, i) && Pending(g1, o) {
          ChainWritten(g1, o, g1.stages[i].result.value);
          SettleResolves(g1, o, g1.stages[i].result.value);
        }
      }
    case _ =>
  }

  /** Event `k` resolved `y` with `r` without being its own completion. */
  predicate ResolvedByAnother(j: seq<Event>, k: nat, y: StageId, r: Result) {
    && k < |j| && Pending(ReplayAll(j[..k]), y) && Resolved(ReplayAll(j[..k + 1]), y)
    && ReplayAll(j[..k + 1]).stages[y].result == Some(r) && !(j[k].StageCompleted? && j[k].stage == y)
  }

  /** A replay writes again the completions of exactly the stages that some event of the journal
      resolved without being their own completion. */
  lemma {:induction false} ReplayWritesExactly(j: seq<Event>, forced: Forced, y: StageId, r: Result)
    requires Good(j, forced)
    ensures StageCompleted(y, r) in Reemitted(j) <==> exists k: nat :: ResolvedByAnother(j, k, y, r)
    decreases |j|
  {
    hide Shape, Justified, Apply, Reemit, ClosedExcept;
    if j != [] {
      var m := Init(j);
      ReplayWritesExactly(m, forced, y, r);
      ReplayWellFormed(m, forced);
      assert j[..|m|] == m && j[..|m| + 1] == j;
      if Last(j).GraphCreated? {
        CreationWrites(m, y, r);
      } else {
        NewStage(m, Last(j));
        EventWritten(ReplayAll(m), Last(j), y, r);
      }
      forall k: nat | k < |m| ensures ResolvedByAnother(m, k, y, r) <==> ResolvedByAnother(j, k, y, r) {
        assert m[..k] == j[..k] && m[..k + 1] == j[..k + 1];
      }
      if k: nat :| ResolvedByAnother(m, k, y, r) { assert ResolvedByAnother(j, k, y, r); }
      if StageCompleted(y, r) in Reemit(ReplayAll(m), Last(j)) { assert ResolvedByAnother(j, |m|, y, r); }
      if k: nat :| ResolvedByAnother(j, k, y, r) { assert k < |m| ==> ResolvedByAnother(m, k, y, r); }
    }
  }

  lemma CreationWrites(m: seq<Event>, y: StageId, r: Result)
    requires Admissible(m, GraphCreated)
    ensures StageCompleted(y, r) !in Reemit(ReplayAll(m), GraphCreated) && !Pending(ReplayAll(m), y)
  {
  }

  lemma NewStage(m: seq<Event>, e: Event)
    requires WellFormed(ReplayAll(m)) && Admissible(m, e)
    ensures e.StageAdded? ==> e.stage !in ReplayAll(m).stages
  {
  }

  /** Recovery is idempotent: the journal as extended by a replay is good, rebuilds the same
      graph, and the next replay writes the same events once more. */
  lemma ReplayIsIdempotent(j: seq<Event>, forced: Forced)
    requires j != [] && Good(j, forced)
    ensures var extended := j + Reemitted(j);
            && Good(extended, forced)
            && ReplayAll(extended) == ReplayAll(j)
            && Reemitted(extended) == Reemitted(j)
  {
    ReplayOnlyEchoes(j, forced);
    EchoesAreHarmless(j, Reemitted(j), forced);
  }

  /** A journal cut inside a compose chain replays to the completed chain: of the completions
      that follow the head of a chain, any prefix gives the same graph. */
  lemma CutInsideChain(j: seq<Event>, e: Event, n: nat, forced: Forced)
    requires j != [] && Good(j + [e], forced) && n <= |Reemit(ReplayAll(j), e)|
    ensures var cut := (j + [e]) + Reemit(ReplayAll(j), e)[..n];
            Good(cut, forced) && ReplayAll(cut) == ReplayAll(j + [e])
  {
    Append(j, e, forced);
    ReemitEchoes(j, e, forced);
    EchoesAreHarmless(j + [e], Reemit(ReplayAll(j), e)[..n], forced);
  }
}
