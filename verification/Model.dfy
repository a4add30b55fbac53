/** The values that flow through a completion graph: results, operations, stages,
    journaled events, and the persisted part of the graph itself. */
module FlowModel {

  datatype Option<+T> = None | Some(value: T)

  /** Stage identifiers are the decimal numerals of 0, 1, 2, ... in order of addition
      (graph/graph.go:147); the model keeps the number. */
  type StageId = nat

  // ----- Results (model/model.proto, model/results.go) -----

  datatype Blob = Blob(id: string, contentType: string, length: int)

  datatype ErrorKind =
    | UnknownError | StageTimeout | StageFailed | FunctionTimeout
    | FunctionInvokeFailed | StageLost | InvalidStageResponse

  datatype Status = UnknownState | StatusSucceeded | StatusFailed | StatusCancelled | StatusKilled

  datatype Header = Header(key: string, value: string)

  /** `NoDatum` is the protobuf oneof with no member set. */
  datatype Datum =
    | NoDatum
    | EmptyDatum
    | BlobDatum(blob: Blob)
    | ErrorDatum(kind: ErrorKind, message: string)
    | StageRefDatum(stage: StageId)
    | HttpReqDatum(reqBody: Option<Blob>, reqHeaders: seq<Header>, verb: string)
    | HttpRespDatum(respBody: Option<Blob>, respHeaders: seq<Header>, code: int)
    | StatusDatum(status: Status)

  datatype Result = Result(successful: bool, datum: Datum)

  function EmptyResult(): Result { Result(true, EmptyDatum) }

  function InternalError(kind: ErrorKind, message: string): Result {
    Result(false, ErrorDatum(kind, message))
  }

  function StageLostResult(): Result {
    InternalError(StageLost, "Stage invocation lost - stage may still be executing")
  }

  function TerminationResult(status: Status): Result { Result(true, StatusDatum(status)) }

  // ----- Operations and their strategies (graph/stage_strategy.go) -----

  datatype Operation =
    | UnknownOperation
    | AcceptEither | ApplyToEither | ThenAcceptBoth | ThenApply | ThenRun | ThenAccept
    | ThenCompose | ThenCombine | WhenComplete | Handle | Supply | InvokeFunction
    | CompletedValue | Delay | AllOf | AnyOf | ExternalCompletion | Exceptionally
    | TerminationHook | ExceptionallyCompose

  datatype TriggerKind = WaitForAll | TriggerAny | TriggerNever

  datatype ExecKind =
    | SucceedWithEmpty | InvokeWithoutArgs | InvokeWithResult | InvokeWithResultOrError
    | CompleteExternally | PropagateResult

  datatype ResultKind = InvocationResult | ReferencedStageResult | ParentStageResult | NoResultStrategy

  /** `maxDependencies == -1` means unlimited. */
  datatype Strategy = Strategy(
    canAddChildren: bool,
    takesClosure: bool,
    maxDependencies: int,
    minDependencies: int,
    trigger: TriggerKind,
    success: ExecKind,
    failure: ExecKind,
    resultHandling: ResultKind)

  // ----- Stages and graph (graph/stage.go, graph/graph.go) -----

  datatype Phase = MainPhase | TerminationPhase

  /** A dependency is the termination meta-stage or another stage. */
  datatype Dependency = Root | On(stage: StageId)

  /** The persistent fields of a stage. The volatile `triggered` flag is kept apart. */
  datatype Stage = Stage(
    operation: Operation,
    strategy: Strategy,
    closure: Option<Blob>,
    dependencies: seq<Dependency>,
    phase: Phase,
    result: Option<Result>,
    composeReference: Option<StageId>)

  datatype State = Initial | Committed | Terminating | Completed

  function Rank(s: State): nat {
    match s
    case Initial => 0
    case Committed => 1
    case Terminating => 2
    case Completed => 3
  }

  datatype Graph = Graph(
    stages: map<StageId, Stage>,
    state: State,
    terminationRoot: Option<Result>,
    terminationChainHead: Option<StageId>)

  function NewGraph(): Graph { Graph(map[], Initial, None, None) }

  predicate Resolved(g: Graph, x: StageId) {
    x in g.stages && g.stages[x].result.Some?
  }

  predicate Pending(g: Graph, x: StageId) {
    x in g.stages && g.stages[x].result.None?
  }

  function PendingIn(g: Graph, phase: Phase): set<StageId> {
    set x | x in g.stages && g.stages[x].phase == phase && g.stages[x].result.None?
  }

  function DependencyResult(g: Graph, d: Dependency): Option<Result> {
    match d
    case Root => g.terminationRoot
    case On(x) => if x in g.stages then g.stages[x].result else None
  }

  function DependencyResults(g: Graph, deps: seq<Dependency>): (rs: seq<Option<Result>>)
    ensures |rs| == |deps|
    ensures forall i :: 0 <= i < |deps| ==> rs[i] == DependencyResult(g, deps[i])
  {
    seq(|deps|, i requires 0 <= i < |deps| => DependencyResult(g, deps[i]))
  }

  // ----- Journaled events (model/model.proto) -----

  datatype Event =
    | GraphCreated
    | GraphCommitted
    | GraphTerminating(status: Status)
    | GraphCompleted
    | StageAdded(stage: StageId, op: Operation, closure: Option<Blob>, deps: seq<StageId>)
    | StageCompleted(stage: StageId, result: Result)
    | StageComposed(stage: StageId, inner: StageId)
    | InvocationStarted(stage: StageId)
    | InvocationCompleted(stage: StageId, result: Result)
    | DelayScheduled(stage: StageId, dueMs: int)
}
