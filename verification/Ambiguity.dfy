/** Where the order of iteration does matter: a stage that was answered twice, with two different
    inner stages, takes the result of whichever completes first. */
module Ambiguity {
  import opened FlowModel
  import opened Replay
  import opened Structure
  import opened Recovery
  import opened Cascades

  /** Two pending stages composed into the same pending one: it gets the result of the first. */
  lemma FirstInnerWins(g: Graph, a: StageId, b: StageId, o: StageId, ra: Result, rb: Result)
    requires ComposeClosed(g) && Pending(g, a) && Pending(g, b) && Pending(g, o)
    requires ComposedInto(g, a, o) && ComposedInto(g, b, o)
    ensures var g1 := Complete(g, a, ra);
            && b in g1.stages
            && var g2 := Complete(g1, b, rb);
               Resolved(g2, o) && g2.stages[o].result == Some(ra)
  {
    hide Settle, Complete;
    var g1 := Complete(g, a, ra);
    CompleteFacts(g, a, ra);
    assert ChainPath(g, a, o, [a, o]);
    ClosedEvenExcept(g, a);
    PathIsSettled(g, a, ra, [a, o], 1);
    CompleteFacts(g1, b, rb);
  }

  lemma FlagStays(j: seq<Event>, k: nat, forced: Forced, x: StageId, ok: bool)
    requires Good(j, forced) && k <= |j| && Flag(ReplayAll(j[..k]), x, ok)
    ensures Flag(ReplayAll(j), x, ok)
  {
    hide Good, ReplayAll;
    ReplayExtends(j, k, forced);
  }

  // ----- Races -----

  /** A cascade from `p` can come to `m`. */
  predicate Reached(p: seq<Event>, triggered: set<StageId>, forced: Forced, m: seq<Event>) {
    p != [] && Good(m, forced) && Cascade(p, triggered, m)
  }

  /** A pass that has come to `m` can complete `x` with `r` next. */
  predicate Fires(m: seq<Event>, triggered: set<StageId>, x: StageId, r: Result) {
    Pending(ReplayAll(m), x) && x !in triggered && CompletedByTrigger(ReplayAll(m), x, r)
  }

  /** Two stages can complete next, with different success, and their compose chains meet. */
  ghost predicate Race(m: seq<Event>, triggered: set<StageId>, a: StageId, ra: Result, b: StageId, rb: Result, o: StageId) {
    && Fires(m, triggered, a, ra) && Fires(m, triggered, b, rb) && ra.successful != rb.successful
    && OnChain(ReplayAll(m), a, o) && OnChain(ReplayAll(m), b, o)
  }

  /** The compose chain of `x`, and nobody else, was newly resolved, with success `ok`. */
  ghost predicate Settled(g: Graph, x: StageId, ok: bool, g': Graph) {
    && SameFrame(g, g') && g'.state == g.state && g'.terminationRoot == g.terminationRoot
    && forall y: StageId, b: bool :: Flag(g', y, b) <==> Flag(g, y, b) || (OnChain(g, x, y) && b == ok)
  }

  lemma OnChainPending(g: Graph, x: StageId, y: StageId)
    requires OnChain(g, x, y)
    ensures Pending(g, y)
  {
    var path :| ChainPath(g, x, y, path);
    assert Pending(g, path[|path| - 1]);
  }

  lemma CompleteSettled(g: Graph, x: StageId, r: Result)
    requires WellFormed(g) && Pending(g, x)
    ensures Settled(g, x, r.successful, Complete(g, x, r))
  {
    hide Shape, Settle, OnChain;
    var g' := Complete(g, x, r);
    CompleteFacts(g, x, r);
    forall y: StageId, b: bool ensures Flag(g', y, b) <==> Flag(g, y, b) || (OnChain(g, x, y) && b == r.successful) {
      if OnChain(g, x, y) { OnChainPending(g, x, y); }
      if Pending(g, y) { SettlesExactlyTheChain(g, x, r, y); }
    }
  }

  lemma FireNext(p: seq<Event>, triggered: set<StageId>, forced: Forced, m: seq<Event>, x: StageId, r: Result)
    requires Reached(p, triggered, forced, m) && Fires(m, triggered, x, r)
    ensures var m' := m + [StageCompleted(x, r)];
            Reached(p, triggered, forced, m') && Settled(ReplayAll(m), x, r.successful, ReplayAll(m'))
  {
    hide KeysOk, ChainOk, RefsOk, LifecycleOk, ComposeClosed, Settle, Complete, Cascade, Settled;
    ReplayWellFormed(m, forced);
    CascadeExtends(p, triggered, m);
    StageOf(ReplayAll(m), x);
    Append(m, StageCompleted(x, r), forced);
    CascadeSnoc(p, triggered, m, StageCompleted(x, r));
    CompleteSettled(ReplayAll(m), x, r);
  }

  /** Whenever two stages race, wherever in a cascade, a pass that visits one first and a pass that
      visits the other first are both possible, and whatever follows either, they disagree. */
  lemma AmbiguityMatters(
    p: seq<Event>, triggered: set<StageId>, forced: Forced, m: seq<Event>,
    a: StageId, ra: Result, b: StageId, rb: Result, o: StageId, j1: seq<Event>, j2: seq<Event>)
    requires Reached(p, triggered, forced, m) && Race(m, triggered, a, ra, b, rb, o)
    requires m + [StageCompleted(a, ra)] <= j1 && Good(j1, forced)
    requires m + [StageCompleted(b, rb)] <= j2 && Good(j2, forced)
    ensures Reached(p, triggered, forced, m + [StageCompleted(a, ra)])
    ensures Reached(p, triggered, forced, m + [StageCompleted(b, rb)])
    ensures !SameOutcome(ReplayAll(j1), ReplayAll(j2))
  {
    hide Good, ReplayAll, Fires, Reached, OnChain, SameFrame;
    FireNext(p, triggered, forced, m, a, ra);
    FireNext(p, triggered, forced, m, b, rb);
    assert j1[..|m| + 1] == m + [StageCompleted(a, ra)] && j2[..|m| + 1] == m + [StageCompleted(b, rb)];
    FlagStays(j1, |m| + 1, forced, o, ra.successful);
    FlagStays(j2, |m| + 1, forced, o, rb.successful);
  }
}
