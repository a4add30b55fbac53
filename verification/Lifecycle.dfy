/** Histories: what a journal can say over all generations of its actor. */
module Lifecycle {
  import opened FlowModel
  import opened StageStrategy
  import opened Replay
  import opened Structure

  /** The lifecycle step an event announces, 0 for none. */
  function Step(e: Event): nat {
    match e
    case GraphCommitted => 1
    case GraphTerminating(_) => 2
    case GraphCompleted => 3
    case _ => 0
  }

  lemma StepMovesState(j: seq<Event>, k: nat, forced: Forced)
    requires Good(j, forced) && k < |j| && Step(j[k]) > 0
    ensures Rank(ReplayAll(j[..k]).state) == Step(j[k]) - 1
    ensures Rank(ReplayAll(j[..k + 1]).state) == Step(j[k])
  {
    GoodAt(j, k, forced);
  }

  lemma StatesGrow(j: seq<Event>, a: nat, b: nat, forced: Forced)
    requires Good(j, forced) && a <= b <= |j|
    ensures Extends(ReplayAll(j[..a]), ReplayAll(j[..b]))
  {
    GoodPrefix(j, b, forced);
    ReplayExtends(j[..b], a, forced);
    assert j[..b][..a] == j[..a];
  }

  /** Committed, terminating and completed events occur in that order and each at most once in
      the whole journal, however many generations wrote it. */
  lemma LifecycleInOrder(j: seq<Event>, forced: Forced, a: nat, b: nat)
    requires Good(j, forced) && a < |j| && b < |j| && Step(j[a]) > 0 && Step(j[b]) > 0
    ensures a < b <==> Step(j[a]) < Step(j[b])
    ensures a == b <==> Step(j[a]) == Step(j[b])
  {
    StepMovesState(j, a, forced);
    StepMovesState(j, b, forced);
    if a < b { StatesGrow(j, a + 1, b, forced); }
    if b < a { StatesGrow(j, b + 1, a, forced); }
  }

  /** No lifecycle step is skipped. */
  lemma {:induction false} LifecycleHasPredecessor(j: seq<Event>, forced: Forced, n: nat)
    requires Good(j, forced) && 0 < n <= Rank(ReplayAll(j).state)
    ensures exists a :: 0 <= a < |j| && Step(j[a]) == n
  {
    var g := ReplayAll(Init(j));
    if n <= Rank(g.state) {
      LifecycleHasPredecessor(Init(j), forced, n);
      var a :| 0 <= a < |Init(j)| && Step(Init(j)[a]) == n;
      assert Step(j[a]) == n;
    } else {
      ReplayWellFormed(Init(j), forced);
      StateOnlyBySteps(g, Last(j));
      assert Step(j[|j| - 1]) == n;
    }
  }

  lemma StateOnlyBySteps(g: Graph, e: Event)
    requires WellFormed(g)
    ensures Step(e) == 0 && !e.GraphCreated? ==> Apply(g, e).state == g.state
  {
    match e
    case StageCompleted(x, r) => if x in g.stages { CompleteFacts(g, x, r); }
    case StageComposed(o, i) => if i in g.stages && o in g.stages { ComposeFacts(g, o, i); }
    case StageAdded(_, op, _, _) => var _ := StrategyOf(op);
    case _ =>
  }

  /** A completed graph has no pending stage left, and one that is terminating no pending main stage. */
  lemma DoneMeansResolved(j: seq<Event>, forced: Forced, x: StageId)
    requires Good(j, forced) && x in ReplayAll(j).stages
    ensures var g := ReplayAll(j);
            && (g.state.Completed? ==> Resolved(g, x))
            && (Rank(g.state) >= 2 && !IsHook(g, x) ==> Resolved(g, x))
  {
    ReplayWellFormed(j, forced);
    var g := ReplayAll(j);
    assert StageOk(g, x);
    if Pending(g, x) { assert x in PendingIn(g, g.stages[x].phase); }
  }

  /** Nothing is added once a graph is terminating. */
  lemma NothingAddedAfterTermination(j: seq<Event>, forced: Forced, a: nat, b: nat)
    requires Good(j, forced) && a < b < |j| && j[a].GraphTerminating?
    ensures !j[b].StageAdded?
  {
    StepMovesState(j, a, forced);
    StatesGrow(j, a + 1, b, forced);
    GoodAt(j, b, forced);
  }

  // ----- Results over the whole history -----

  /** Results are write-once: a stage resolved by some prefix has that result ever after. */
  lemma ResultsAreWriteOnce(j: seq<Event>, forced: Forced, a: nat, b: nat, x: StageId)
    requires Good(j, forced) && a <= b <= |j| && Resolved(ReplayAll(j[..a]), x)
    ensures Resolved(ReplayAll(j[..b]), x)
    ensures ReplayAll(j[..b]).stages[x].result == ReplayAll(j[..a]).stages[x].result
  {
    StatesGrow(j, a, b, forced);
  }

  lemma CompletionResolves(j: seq<Event>, forced: Forced, k: nat)
    requires Good(j, forced) && k < |j| && j[k].StageCompleted?
    ensures Resolved(ReplayAll(j[..k + 1]), j[k].stage)
    ensures Pending(ReplayAll(j[..k]), j[k].stage) ==> ReplayAll(j[..k + 1]).stages[j[k].stage].result == Some(j[k].result)
  {
    GoodAt(j, k, forced);
    ReplayWellFormed(j[..k], forced);
    CompleteFacts(ReplayAll(j[..k]), j[k].stage, j[k].result);
  }

  /** Delays, external completions and given values, which never trigger, have at most one
      completion event in the journal across all restarts. */
  lemma UntriggeredCompletesOnce(j: seq<Event>, forced: Forced, a: nat, b: nat, x: StageId)
    requires Good(j, forced) && a < b < |j|
    requires x in ReplayAll(j).stages && ReplayAll(j).stages[x].strategy.trigger.TriggerNever?
    requires j[a].StageCompleted? && j[a].stage == x
    ensures !(j[b].StageCompleted? && j[b].stage == x)
  {
    CompletionResolves(j, forced, a);
    StatesGrow(j, a + 1, b, forced);
    ReplayExtends(j, b, forced);
    GoodAt(j, b, forced);
  }
}
