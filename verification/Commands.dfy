/** The commands a graph actor accepts, its answers, and command validation (graph/graph.go:407). */
module Commands {
  import opened FlowModel
  import opened StageStrategy
  import opened Replay
  import opened Structure

  const MAX_DELAY_SECONDS := 86400
  const MAX_STAGES := 1000
  const MAX_TERMINATION_HOOKS := 100

  /** `nowMs` is the actor's clock when it handles the command. */
  datatype Command =
    | CreateGraph
    | AddStage(op: Operation, closure: Option<Blob>, deps: seq<StageId>)
    | AddCompletedValue(value: Result)
    | AddDelay(delayMs: int, nowMs: int)
    | AddInvokeFunction
    | CompleteStageExternally(stage: StageId, value: Result)
    | Commit
    | AwaitStageResult(stage: StageId)
    | CompleteDelay(stage: StageId, result: Result)
    | InvocationResponse(stage: StageId, result: Result)

  datatype Error =
    | GraphAlreadyExists | GraphNotFound | GraphAlreadyCompleted | InvalidOperation | InvalidStageDependencies
    | NeedsClosure | ShouldNotHaveClosure | TooManyStages | TooManyTerminationHooks
    | InvalidDelay | InvalidDatum | StageNotFound

  datatype Response =
    | Failure(error: Error)
    | GraphResponse
    | StageResponse(stage: StageId)
    | CompletionResponse(successful: bool)
    | Processed
    | AwaitFuture(stage: StageId)
    | NoResponse

  /** A running delay: when it is due, the actor is told to complete the stage with the result. */
  datatype Timer = Timer(stage: StageId, dueMs: int, result: Result)

  /** The delays a journal schedules, in order; all of them complete with an empty success. */
  function Delays(j: seq<Event>): seq<Timer> {
    if j == [] then []
    else Delays(Init(j)) + (if Last(j).DelayScheduled? then [Timer(Last(j).stage, Last(j).dueMs, EmptyResult())] else [])
  }

  /** A delay is running exactly if the journal schedules it, and completes with an empty success. */
  lemma {:induction false} DelaysExactly(j: seq<Event>, t: Timer)
    ensures t in Delays(j) <==> DelayScheduled(t.stage, t.dueMs) in j && t.result == Result(true, EmptyDatum)
  {
    if j != [] {
      DelaysExactly(Init(j), t);
      assert j == Init(j) + [Last(j)];
    }
  }

  function Hooks(g: Graph): set<StageId> {
    set x | x in g.stages && g.stages[x].operation.TerminationHook?
  }

  predicate AllPresent(g: Graph, ids: seq<StageId>) { forall i :: 0 <= i < |ids| ==> ids[i] in g.stages }

  /** The checks shared by all commands that add a stage, in the order of the source. */
  function ValidateAdd(g: Graph, op: Operation, count: nat, hasClosure: bool): Option<Error> {
    if !Open(g) then Some(GraphAlreadyCompleted)
    else if StrategyOf(op).None? then Some(InvalidOperation)
    else if !ArityOk(StrategyOf(op).value, count) then Some(InvalidStageDependencies)
    else if StrategyOf(op).value.takesClosure && !hasClosure then Some(NeedsClosure)
    else if !StrategyOf(op).value.takesClosure && hasClosure then Some(ShouldNotHaveClosure)
    else if |g.stages| >= MAX_STAGES then Some(TooManyStages)
    else if op.TerminationHook? && |Hooks(g)| >= MAX_TERMINATION_HOOKS then Some(TooManyTerminationHooks)
    else None
  }

  /** The operation a command adds, if it adds one. */
  function AddedOperation(cmd: Command): Option<Operation> {
    match cmd
    case AddStage(op, _, _) => Some(op)
    case AddCompletedValue(_) => Some(Operation.CompletedValue)
    case AddDelay(_, _) => Some(Operation.Delay)
    case AddInvokeFunction => Some(Operation.InvokeFunction)
    case _ => None
  }

  function Validate(g: Graph, cmd: Command): Option<Error> {
    var general :=
      match cmd
      case AddStage(op, closure, deps) => ValidateAdd(g, op, |deps|, closure.Some?)
      case AddCompletedValue(_) => ValidateAdd(g, Operation.CompletedValue, 0, false)
      case AddDelay(_, _) => ValidateAdd(g, Operation.Delay, 0, false)
      case AddInvokeFunction => ValidateAdd(g, Operation.InvokeFunction, 0, false)
      case _ => None;
    if general.Some? then general
    else
      match cmd
      case AddDelay(ms, _) => if ms <= 0 || ms > MAX_DELAY_SECONDS * 1000 then Some(InvalidDelay) else None
      case AddStage(_, _, deps) => if !AllPresent(g, deps) then Some(InvalidStageDependencies) else None
      case AddCompletedValue(v) => if v.datum.NoDatum? then Some(InvalidDatum) else None
      case CompleteStageExternally(x, v) =>
        if v.datum.NoDatum? then Some(InvalidDatum) else if x !in g.stages then Some(StageNotFound) else None
      case AwaitStageResult(x) => if x !in g.stages then Some(StageNotFound) else None
      case _ => None
  }

  /** The closure a command carries. */
  function ClosureOf(cmd: Command): Option<Blob> {
    if cmd.AddStage? then cmd.closure else None
  }

  function DepsOf(cmd: Command): seq<StageId> {
    if cmd.AddStage? then cmd.deps else []
  }

  /** The event an accepted adding command becomes. */
  function AddedEvent(g: Graph, cmd: Command): Event
    requires AddedOperation(cmd).Some?
  {
    StageAdded(|g.stages|, AddedOperation(cmd).value, ClosureOf(cmd), DepsOf(cmd))
  }

  /** Validation lets an adding command through exactly when its event can be applied without any
      of the handlers' panics, its closure fits the operation, its limits are kept, and its own
      payload is valid. */
  lemma ValidationIsExact(j: seq<Event>, forced: Forced, cmd: Command)
    requires Good(j, forced) && j != [] && AddedOperation(cmd).Some?
    ensures var g := ReplayAll(j);
            Validate(g, cmd).None? <==>
              && Admissible(j, AddedEvent(g, cmd))
              && StrategyOf(AddedOperation(cmd).value).value.takesClosure == ClosureOf(cmd).Some?
              && |g.stages| < MAX_STAGES
              && (AddedOperation(cmd).value.TerminationHook? ==> |Hooks(g)| < MAX_TERMINATION_HOOKS)
              && (cmd.AddDelay? ==> 0 < cmd.delayMs <= MAX_DELAY_SECONDS * 1000)
              && (cmd.AddCompletedValue? ==> !cmd.value.datum.NoDatum?)
    ensures AddedEvent(ReplayAll(j), cmd).stage !in ReplayAll(j).stages
  {
    hide Good, StrategyOf, ChainOk, StagesOk, RefsOk, LifecycleOk, ComposeClosed;
    ReplayWellFormed(j, forced);
  }

  /** How many dependencies an operation takes, as the commands that add its stage are checked. */
  lemma AritiesByOperation(op: Operation, n: nat)
    ensures StrategyOf(op).Some? && ArityOk(StrategyOf(op).value, n) <==>
              match op
              case UnknownOperation => false
              case AllOf => true
              case AnyOf => n >= 1
              case AcceptEither => n == 2
              case ApplyToEither => n == 2
              case ThenAcceptBoth => n == 2
              case ThenCombine => n == 2
              case Supply => n == 0
              case InvokeFunction => n == 0
              case CompletedValue => n == 0
              case Delay => n == 0
              case ExternalCompletion => n == 0
              case TerminationHook => n == 0
              case _ => n == 1
  {
  }

  /** Which operations run a closure. */
  lemma ClosuresByOperation(op: Operation)
    requires StrategyOf(op).Some?
    ensures StrategyOf(op).value.takesClosure <==>
              !op.InvokeFunction? && !op.CompletedValue? && !op.Delay? && !op.AllOf? && !op.AnyOf? && !op.ExternalCompletion?
  {
  }

  /** A stage may be added exactly while the graph is open, with a known operation, as many existing
      dependencies as it takes, a closure if and only if it runs one, and within the limits. */
  lemma AcceptedAdditions(g: Graph, op: Operation, closure: Option<Blob>, deps: seq<StageId>)
    ensures Validate(g, AddStage(op, closure, deps)).None? <==>
              && (g.state.Initial? || g.state.Committed?) && !op.UnknownOperation?
              && (forall i :: 0 <= i < |deps| ==> deps[i] in g.stages)
              && (op.AnyOf? ==> |deps| >= 1)
              && (op.AcceptEither? || op.ApplyToEither? || op.ThenAcceptBoth? || op.ThenCombine? ==> |deps| == 2)
              && (op.Supply? || op.InvokeFunction? || op.CompletedValue? || op.Delay? || op.ExternalCompletion? || op.TerminationHook? ==> deps == [])
              && (op.ThenApply? || op.ThenRun? || op.ThenAccept? || op.ThenCompose? ==> |deps| == 1)
              && (op.WhenComplete? || op.Handle? || op.Exceptionally? || op.ExceptionallyCompose? ==> |deps| == 1)
              && (closure.None? <==> op.InvokeFunction? || op.CompletedValue? || op.Delay? || op.AllOf? || op.AnyOf? || op.ExternalCompletion?)
              && |g.stages| < 1000
              && (op.TerminationHook? ==> |set h | h in g.stages && g.stages[h].operation.TerminationHook?| < 100)
  {
    hide StrategyOf, ArityOk;
    AritiesByOperation(op, |deps|);
    KnownOperations(op);
    if StrategyOf(op).Some? { ClosuresByOperation(op); }
    assert Hooks(g) == set h | h in g.stages && g.stages[h].operation.TerminationHook?;
  }

  lemma KnownOperations(op: Operation)
    ensures StrategyOf(op).None? <==> op.UnknownOperation?
  {
  }

  /** The other additions, and what is checked of the commands that add nothing. */
  lemma AcceptedOthers(g: Graph, cmd: Command)
    requires !cmd.CreateGraph? && !cmd.AddStage?
    ensures cmd.AddCompletedValue? || cmd.AddDelay? || cmd.AddInvokeFunction? ==>
              (Validate(g, cmd).None? <==>
                 && (g.state.Initial? || g.state.Committed?) && |g.stages| < 1000
                 && (cmd.AddCompletedValue? ==> !cmd.value.datum.NoDatum?)
                 && (cmd.AddDelay? ==> 0 < cmd.delayMs <= 86400000))
    ensures cmd.CompleteStageExternally? ==>
              Validate(g, cmd) == (if cmd.value.datum.NoDatum? then Some(InvalidDatum) else if cmd.stage !in g.stages then Some(StageNotFound) else None)
    ensures cmd.AwaitStageResult? ==> Validate(g, cmd) == (if cmd.stage in g.stages then None else Some(StageNotFound))
    ensures cmd.Commit? || cmd.CompleteDelay? || cmd.InvocationResponse? ==> Validate(g, cmd).None?
  {
  }

  /** The error tells what is wrong, and that all that is checked before it was right. */
  lemma ErrorsInOrder(g: Graph, op: Operation, closure: Option<Blob>, deps: seq<StageId>)
    requires Validate(g, AddStage(op, closure, deps)).Some?
    ensures var open := g.state.Initial? || g.state.Committed?;
            match Validate(g, AddStage(op, closure, deps)).value
            case GraphAlreadyCompleted => !open
            case InvalidOperation => open && op.UnknownOperation?
            case InvalidStageDependencies =>
              open && !op.UnknownOperation? && (!ArityOk(StrategyOf(op).value, |deps|) || exists i :: 0 <= i < |deps| && deps[i] !in g.stages)
            case NeedsClosure => open && closure.None? && StrategyOf(op).Some? && StrategyOf(op).value.takesClosure
            case ShouldNotHaveClosure => open && closure.Some? && StrategyOf(op).Some? && !StrategyOf(op).value.takesClosure
            case TooManyStages => open && |g.stages| >= 1000
            case TooManyTerminationHooks => open && op.TerminationHook? && |g.stages| < 1000
            case _ => false
  {
    hide StrategyOf, ArityOk;
    KnownOperations(op);
  }

  lemma AddedIsThere(g: Graph, e: Event)
    requires e.StageAdded? && StrategyOf(e.op).Some?
    ensures e.stage in Apply(g, e).stages
  {
  }

  lemma AddedStaysThere(j: seq<Event>, forced: Forced, a: nat, b: nat)
    requires Good(j, forced) && a < b <= |j| && j[a].StageAdded?
    ensures j[a].stage in ReplayAll(j[..b]).stages
  {
    GoodAt(j, a, forced);
    AddedIsThere(ReplayAll(j[..a]), j[a]);
    GoodPrefix(j, b, forced);
    assert j[..b][..a + 1] == j[..a + 1];
    ReplayExtends(j[..b], a + 1, forced);
  }

  /** Identifiers grow along the journal, so no two stages ever share one. */
  lemma IdentifiersAreFresh(j: seq<Event>, forced: Forced, a: nat, b: nat)
    requires Good(j, forced) && a < b < |j| && j[a].StageAdded? && j[b].StageAdded?
    ensures j[a].stage < j[b].stage
  {
    GoodAt(j, b, forced);
    AddedStaysThere(j, forced, a, b);
    ReplayWellFormed(j[..b], forced);
  }
}
