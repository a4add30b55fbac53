# Completion graphs: a verified model

The flow service keeps, for every flow, a *completion graph*: stages that wait for each other, run
closures in an executor, and complete each other. A graph lives in an actor that journals an event
before it applies it. Applying an event can complete stages, trigger others, journal more events and
move the graph through its lifecycle, all before the call returns. After a crash the journal is
replayed and pending work is fixed up. This project models that machinery, the journal streaming
layer under it, and the shard routing in front of it, and proves what holds of every journal, every
run and every iteration order of the stages map.

## How the model is built

| file | holds |
|---|---|
| `Model.dfy` | results, operations, stages, events, and the persisted part of a graph |
| `Strategy.dfy` | trigger, execution and result strategies and the operation table |
| `Replay.dfy` | a graph as a fold over its journal, and which journals are *good* |
| `Structure.dfy` | the shape of every graph a good journal rebuilds, and what later events keep |
| `Lifecycle.dfy` | histories: lifecycle steps and results over all generations |
| `Semantics.dfy` | what the result of each kind of stage means; termination hooks |
| `Journaled.dfy` | what each event of a journal leaves in the graph |
| `Operations.dfy` | each operation, from the event that added its stage and the results of the stages it names |
| `Recovery.dfy` | compose chains and what a replay writes again |
| `Cascades.dfy` | what one event sets off, in any iteration order |
| `Ambiguity.dfy` | races: where the iteration order does matter |
| `Confluence.dfy` | exactly when it matters, for results and for invocations |
| `Worlds.dfy` | the actor's state as a value, its invariants, and its elementary steps |
| `Commands.dfy` | commands and their validation |
| `Steps.dfy` | the states between the handlers' steps; whole commands |
| `Requests.dfy` | what the executor is asked, and that at rest nobody is forgotten |
| `Effects.dfy` | what each command leaves behind |
| `Restarts.dfy` | what becomes of stages that were waiting when their actor died |
| `Witnesses.dfy` | concrete journals on which promises of the comments fail, or the order matters |
| `GraphActor.dfy` | the actor and its graph as one class, method by method |
| `Streaming.dfy` | a journal subscription under all interleavings |
| `Journals.dfy` | the in-memory journal |
| `Names.dfy`, `Routing.dfy` | numerals, shards, nodes, supervisors |

The graph and its actor are one class, because the listener callbacks re-enter the graph. The
persisted part of its state is the datatype `Graph`; the volatile part (triggered flags, notified
futures, requests to the executor, timers) belongs to one *generation*, the span between two starts.
`Good(j, forced)` says that every event of journal `j` satisfied the guards of its handler and its
writer where it was written, and that every completion came from the stage's own strategies, from
outside (`forced.outside`), or from a recovery that found the stage ready (`forced.lost`). `Valid()`
says that the actor is at rest: its graph equals the replay of its journal, the journal is good, no
stage that could be triggered is left, no lifecycle step is due, each resolved stage's future was told
its result exactly once, the requests made in this generation are exactly those its journal owes, in
order and with the arguments the strategies select, at most one per stage, and the running timers are
exactly the delays its journal schedules. Every message is proved to lead from `Valid()` to `Valid()`,
and every start from any good journal, so a journal cut anywhere, to `Valid()`; likewise with
`AllRequested`, that everybody whose closure is to run has been asked for in this generation. `range graph.stages` is
an arbitrary choice among the keys left to visit, so all of this holds for every order.

What comes from outside is a parameter: the executor's replies (any result, at any time, also
repeated, for a stage that was invoked), timers, other actors' publications, the outcome of parsing a
flow identifier, and the clock when a delay is added. Requests are assumed to have passed the
generated message validators, and a stored journal to be one that an actor wrote.

## Where the code and its comments differ

- `Recover` is documented to fail every stage that was running (graph/graph.go:274-275). It fails exactly
  one of the lost stages, whichever the map yields first, together with the stages its compose chain
  reaches (`Restarts.FailedWithTheChosen`); that failure covers all of them exactly when the chain reaches
  them all (`Restarts.PromiseKept`). Each other lost stage runs again, completes by its own trigger, is
  resolved along with an inner stage, or, if it calls a function, stays pending without ever being
  asked for again (`Restarts.LostStageFate`, `Restarts.LeftUnasked`, and for a journal with two lost
  stages `Witnesses.OtherLostStageIsNotFailed`).
- The iteration order of the stages map does not decide which stages a cascade resolves, nor with what
  success, if and only if no pass of it comes to a race: two stages that can complete next, with different
  success, and whose compose chains meet (`Confluence.OutcomeFixedExactly`). There is no race while each
  pending composed stage has one inner stage (`Confluence.UnambiguousIsRaceFree`), as it has when no stage
  was given two different stages to compose with (`ActorSteps.OneInnerOrderIndependence`). One reply per
  stage is enough for that; one reply per request is not, because a restart can run a composed stage
  again, and its second reply can name another stage (`Witnesses.OrderCanMatter`). All of this holds for
  messages and for starts that fail the same stage (`Restarts.RestartsAgree`, `Restarts.RestartsAgreeExactly`).
- Which closures a cascade runs does not depend on the order either, except for those of stages that were
  not triggered before and end up resolved along with a stage composed into them; for each of these
  there is a run that invokes it and one that does not (`Confluence.StartFixedExactly`). Within a
  generation there are none (`Worlds.MessageOrderIndependence`); at a start there can be
  (`Witnesses.StartOrderDecidesRuns`).
- `composeReference` is one field, so a second outer stage displaces the first
  (`Recovery.SecondComposeDropsFirst`; `Witnesses.FirstOuterIsPassedBy`).
- `OnCompleteStage` journals during replay as well (actor/graph.go:431-439). What it writes is harmless
  (`Recovery.ReplayIsIdempotent`; `Witnesses.ReplayWritesAgain` is a journal where it writes something), but
  the event index then lags behind the journal (`GraphActor.GraphActor.constructor`), and a subscription
  misses exactly the events whose lagging index its filter takes for old ones (`Streaming.HeardExactly`,
  `Streaming.LagLoses`).
- `triggerAny` hands on the last failure in list order, where its comment says the first
  (graph/stage_strategy.go:36-57); the two agree exactly when they are equal
  (`StageStrategy.FirstFailureExactly`, `StageStrategy.SecondFailureIsHandedOn`).
- `CanAddChildren` is never read (graph/stage_strategy.go:171), so a main stage may wait for a hook
  (`Witnesses.MainStageWaitsForHook`); such a graph never terminates by itself
  (`Semantics.WaitingForHooksBlocks`).
- A subscription exists before its predicate is set, and its flush does not look for repetitions
  (`Streaming.OnlyWantedEvents`, `Streaming.StrangerIsDelivered`; `Streaming.RepeatedExactly`,
  `Streaming.FlushRepeats`).
- The in-memory journal tells its readers indices relative to where they started
  (`Journals.IndicesAreAbsolute`).

## Model

| member | source | states |
|---|---|---|
| `StageStrategy.WaitForAllLoop` | graph/stage_strategy.go:15-34 | ready exactly when all dependencies are resolved; successful exactly when all succeeded, with all results; otherwise the first failure in list order |
| `StageStrategy.TriggerAnyLoop` | graph/stage_strategy.go:36-59 | ready with the first success in list order, or, when all of at least one failed, with the last failure |
| `StageStrategy.FirstFailureExactly` | graph/stage_strategy.go:36-57 | when all of its dependencies failed, `triggerAny` hands on the first failure exactly if it equals the last |
| `StageStrategy.SecondFailureIsHandedOn` | graph/stage_strategy.go:36-57 | two different failures of which the second is handed on |
| `StageStrategy.StatusIsFixed` | graph/stage_strategy.go:15-59 | once a stage is ready its status depends only on the success flags seen and never changes, whatever resolves later |
| `StageStrategy.Arguments` | graph/stage_strategy.go:79-107 | no arguments, the inputs, or two arguments: the input in the slot its success selects and an empty result in the other |
| `StageStrategy.TableRowsOk` | graph/stage_strategy.go:182-248 | every row of the operation table fits together, so that no strategy is given the wrong number of inputs; what each row does is stated in `Operations`, `Requests` and `Commands` |
| `StageStrategy.SingleInput` | graph/stage_strategy.go:91-119 | the single-input strategies get exactly one input: their panics are unreachable |
| `StageStrategy.ImmediateFollowsStatus` | graph/stage_strategy.go:66-119 | a stage completed at once by its trigger has the success its trigger reports |
| `Replay.GoodPrefix` | persistence/plugin.go:44-53 | a journal cut anywhere, as a crash leaves it, is still good |
| `Structure.ApplyKeeps` | graph/graph.go:362-404 | one admissible event keeps the graph well-formed and everything already decided |
| `Structure.ReplayWellFormed` | graph/graph.go:362-404 | every graph a good journal rebuilds is well-formed |
| `Structure.ReplayExtends` | graph/graph.go:234-251 | whatever a prefix of the journal decided, the whole journal keeps |
| `Structure.SettleFacts` | graph/graph.go:234-242 | completing a stage resolves nothing but its compose chain, all with its result, and leaves no resolved stage with a pending outer one |
| `Structure.CompleteFacts` | graph/stage.go:128-136 | a completion of a resolved stage changes nothing; of a pending one, it settles it and its chain |
| `Structure.AddHookKeeps` | graph/graph.go:204-230 | adding a hook at the head of the chain and rewiring the old head keeps the graph well-formed and undoes nothing |
| `Structure.DependenciesWellFounded` | graph/graph.go:153-230 | along every dependency of every reachable graph a depth strictly decreases: hooks below main stages, later hooks below earlier ones |
| `Structure.InvokedStaysReady` | graph/stage.go:144-174 | whoever was ever invoked is ready, and stays so with a status that invokes it |
| `Structure.OuterWasInvoked` | graph/stage_strategy.go:130-149 | whoever waits for an inner stage was invoked before |
| `Structure.ReferenceWasReplied` | actor/graph.go:442-450 | every compose reference was asked for by a journaled reply that names the inner stage |
| `Journaled.AddedAsJournaled` | graph/graph.go:153-230 | a stage is for good what the event that added it says: operation, closure, phase, and for a main stage its dependencies in order |
| `Journaled.StagesWereAdded` | graph/graph.go:153-230 | every stage was added by an event |
| `Journaled.ComposedIsReferred` | graph/graph.go:263-272 | a journaled composition sets the inner stage's reference to the outer one |
| `Journaled.ReferenceLasts` | graph/graph.go:263-272 | the reference stays until the same inner stage is composed again |
| `Journaled.InnerDecidesOuter` | graph/graph.go:237-272 | unless the inner stage is composed again, once it is resolved so is the outer one, for good with the inner's result if it was pending then |
| `Lifecycle.LifecycleInOrder` | actor/graph.go:247-260 | committed, terminating and completed events each occur at most once and in that order in a journal, over all restarts |
| `Lifecycle.LifecycleHasPredecessor` | graph/graph.go:337-359 | no lifecycle step is skipped |
| `Lifecycle.DoneMeansResolved` | graph/graph.go:106-139 | a completed graph has no pending stage, a terminating one no pending main stage |
| `Lifecycle.NothingAddedAfterTermination` | graph/graph.go:328-335 | no stage is added after termination began |
| `Lifecycle.ResultsAreWriteOnce` | graph/stage.go:128-136 | a resolved stage keeps its first result for good |
| `Lifecycle.CompletionResolves` | graph/graph.go:234-251 | a journaled completion resolves its stage, with its own result if the stage was pending |
| `Lifecycle.UntriggeredCompletesOnce` | actor/graph.go:233-290 | delays, external completions and given values have at most one completion event in the journal, over any number of restarts |
| `Semantics.ResultsFollowStrategies` | graph/stage_strategy.go:126-248 | in every reachable graph a resolved stage not completed from outside has the result its strategies give, or was ready when a recovery failed it; for a stage that ran, that is a journaled reply itself, an error for a reply that names no stage, the result of the stage it names, or the parent's result |
| `Semantics.ReplyMeaning` | graph/stage_strategy.go:126-128 | a stage that ran and takes its reply has one of its journaled replies as its result |
| `Semantics.ComposeMeaning` | graph/stage_strategy.go:130-149 | a stage that ran and composes failed with its reply, or with the error for a reply that names no stage or none that existed, or has the result of the stage its reply named |
| `Semantics.StrategyFromTable` | graph/graph.go:153-182 | every stage has the strategies its operation's row assigns |
| `Semantics.AllOfMeaning` | graph/stage_strategy.go:15-34 | allOf: all dependencies resolved, empty success exactly when all succeeded, else the first failure in list order |
| `Semantics.AnyOfMeaning` | graph/stage_strategy.go:36-59 | anyOf: the result of a dependency, a success exactly when one succeeded, a failure exactly when all failed, then the last one |
| `Semantics.WhenCompleteMeaning` | graph/stage_strategy.go:153-166 | whenComplete: ran its closure and carries its parent's result |
| `Semantics.FailurePropagation` | graph/stage_strategy.go:113-119 | a propagating stage ran its closure exactly when its trigger succeeded; otherwise it carries a dependency's failure and its closure was never invoked in any generation |
| `Semantics.ExceptionallyMeaning` | graph/stage_strategy.go:182-248 | exceptionally passes a success through and runs its closure exactly on a failure |
| `Semantics.UntriggeredNeedsOutside` | graph/stage_strategy.go:62-64 | stages that never trigger are resolved only from outside, not even by a recovery |
| `Semantics.ReadyHookIsLast` | graph/graph.go:204-230 | a ready hook has termination begun and all later hooks resolved behind it, also after recoveries that failed hooks; only completions of hooks from outside are excluded |
| `Semantics.HooksRunLastInFirstOut` | graph/graph.go:128-139 | whenever a hook is invoked, in any generation, the graph is terminating and every hook added after it is resolved |
| `Semantics.HooksEndWith` | graph/stage_strategy.go:153-166 | every resolved hook ends with the termination status, or as lost if it or a hook that ran before it was failed by a recovery |
| `Semantics.HooksEndWithStatus` | graph/stage_strategy.go:153-166 | without recovery failures every resolved hook ends with the termination status, whatever its closure returned |
| `Semantics.WaitingForHooksBlocks` | graph/stage_strategy.go:170-180 | a main stage that waits for hooks stays pending and its graph never terminates, unless it or a hook is completed from outside |
| `Operations.InputsAsJournaled` | graph/graph.go:173-183 | what a stage sees of its dependencies are the results of the stages its event names, in order |
| `Operations.SupplyMeaning` | graph/stage_strategy.go:215-219 | a resolved supply or function call was invoked, and its result is a journaled reply |
| `Operations.HandleMeaning` | graph/stage_strategy.go:212-213 | a resolved handle was invoked, whatever came of its parent, and its result is a journaled reply |
| `Operations.ThenMeaning` | graph/stage_strategy.go:194-204 | thenApply, thenAccept, thenRun and thenCompose ran exactly if their parent succeeded and otherwise carry its failure; but for thenCompose the result of a run is a reply |
| `Operations.EitherMeaning` | graph/stage_strategy.go:185-189 | acceptEither and applyToEither ran exactly if one of the two succeeded, and otherwise carry the second failure; the result of a run is a reply |
| `Operations.BothMeaning` | graph/stage_strategy.go:191-207 | thenCombine and thenAcceptBoth waited for both, ran exactly if both succeeded, and otherwise carry the first failure; the result of a run is a reply |
| `Operations.RecoveringMeaning` | graph/stage_strategy.go:236-243 | exceptionally and exceptionallyCompose ran exactly if their parent failed and otherwise carry its success; for exceptionally the result of a run is a reply |
| `Operations.RunsInAnyCase` | graph/stage_strategy.go:209-240 | a resolved whenComplete or hook was invoked and answered |
| `Operations.OutsideMeaning` | graph/stage_strategy.go:221-234 | given values, delays and external completions are never invoked and are resolved only from outside |
| `Requests.RequestFor` | actor/graph.go:412-428 | every request follows a start journaled in this generation; a closure run carries the closure of the event that added its stage, and a function call is asked for exactly for stages that call one |
| `Requests.SupplyArguments` | graph/stage_strategy.go:79-82 | supply's closure gets no argument |
| `Requests.ThenArguments` | graph/stage_strategy.go:79-87 | thenApply, thenAccept and thenCompose get the result of their parent, which has succeeded; thenRun gets nothing |
| `Requests.RecoveringArguments` | graph/stage_strategy.go:84-87 | exceptionally and exceptionallyCompose get the failure of their parent |
| `Requests.PairArguments` | graph/stage_strategy.go:89-106 | handle and whenComplete get a pair: the parent's success first or its failure second, and an empty result in the other place |
| `Requests.EitherArguments` | graph/stage_strategy.go:36-59 | acceptEither and applyToEither get the first of the two, in list order, that has succeeded |
| `Requests.BothArguments` | graph/stage_strategy.go:15-34 | thenCombine and thenAcceptBoth get both results in list order, and both are successes |
| `Requests.HookArguments` | graph/graph.go:204-230 | the hook added last gets the termination status, every other the result of the hook added right after it |
| `Requests.DeactivatedExactly` | actor/graph.go:466-478 | the actor asks to be deactivated in exactly the generation that completes the graph |
| `Requests.SupplyAtRest` | graph/graph.go:304-316 | at rest a pending supply has been requested in this generation |
| `Requests.SingleAtRest` | graph/graph.go:304-316 | at rest a pending stage with one parent has a pending parent, or its operation runs on what came of it and it has been requested |
| `Requests.EitherAtRest` | graph/graph.go:304-316 | at rest a pending acceptEither or applyToEither has been requested if one of the two succeeded, and otherwise one is pending |
| `Requests.BothAtRest` | graph/graph.go:304-316 | at rest a pending thenCombine or thenAcceptBoth has a pending dependency, or two successes and has been requested |
| `Requests.JoinAtRest` | graph/graph.go:304-316 | at rest a pending allOf or anyOf has a pending dependency, and a pending anyOf none that succeeded |
| `Requests.HookAtRest` | graph/graph.go:128-139 | while the graph terminates, the last hook still pending has been requested |
| `Requests.UnfinishedAtRest` | graph/graph.go:337-359 | a committed graph at rest has a pending main stage, a terminating one a pending hook |
| `Recovery.SettlesExactlyTheChain` | graph/graph.go:297-302 | a completion resolves exactly the pending stages its compose chain reaches, of any length and with cycles, all with the same result |
| `Recovery.ComposedStagesFollow` | graph/graph.go:234-242 | in a whole journal, when a pending stage completes every pending stage up its chain ends with the same result |
| `Recovery.ComposedWithResolvedFollow` | graph/graph.go:263-272 | the same when a stage is composed with one that is already resolved |
| `Recovery.ComposeInvariant` | graph/graph.go:263-272 | in every reachable graph a stage composed with a resolved one is resolved |
| `Recovery.SecondComposeDropsFirst` | graph/graph.go:263-272 | a second composition with the same inner stage displaces the first outer one, which then resolves exactly if the new chain leads to it |
| `Recovery.ReplayOnlyEchoes` | actor/graph.go:431-439 | everything a replay journals again completes a composed outer stage with the result it has after the replay |
| `Recovery.ReplayWritesExactly` | actor/graph.go:431-439 | a replay writes again the completions of exactly the stages that some event of the journal resolved without being their own completion |
| `Recovery.EchoesAreHarmless` | persistence/plugin.go:79-82 | such events appended to a good journal leave it good and change neither the graph it rebuilds nor what its replay writes |
| `Recovery.ReplayIsIdempotent` | persistence/plugin.go:61-85 | the journal extended by its own replay is good, rebuilds the same graph, and replays to the same extension |
| `Recovery.CutInsideChain` | graph/graph.go:240-242 | a journal cut anywhere inside a compose chain replays to the completed chain |
| `Cascades.CascadeKeepsFrame` | graph/graph.go:304-316 | a cascade neither adds, rewires nor composes stages and undoes nothing |
| `Cascades.CascadeSpares` | graph/stage_strategy.go:62-64 | a cascade neither resolves nor invokes stages that wait for the outside |
| `Cascades.CascadeOrigins` | graph/graph.go:304-316 | a stage resolved during a cascade was completed by its own trigger with the trigger's status, or with an inner stage of the same success |
| `Cascades.CascadesAgreeSoFar` | graph/graph.go:304-316 | at every point of one cascade the end of any other from the same start agrees with all decided so far |
| `Cascades.OrderIndependence` | graph/graph.go:304-316 | two cascades from the same graph, of a message or of a start, run dry in any iteration orders, resolve the same stages with the same success and reach the same lifecycle state; they invoke the same closures, but for those of stages resolved along with a stage composed into them |
| `Cascades.OneInnerIsUnambiguous` | actor/graph.go:442-450 | if no stage was given two different stages to compose with, no pending stage waits for two |
| `Cascades.RepliedOnceMeansOneInner` | actor/graph.go:292-301 | whoever was answered at most once was given at most one stage |
| `Ambiguity.FirstInnerWins` | graph/graph.go:263-272 | of two stages composed into the same one, the first to complete decides its result |
| `Ambiguity.AmbiguityMatters` | graph/graph.go:304-316 | wherever in a cascade two stages race, both visiting orders are possible and lead to good journals, and no continuation brings their outcomes together |
| `Confluence.CompletionsCommute` | graph/graph.go:234-242 | two completions in either order resolve the same stages with the same success, unless they differ in success and their compose chains meet |
| `Confluence.Diamond` | graph/graph.go:304-316 | of two stages that can complete next, each can still complete after the other, and without races both orders have the same effect |
| `Confluence.LifecycleAlone` | graph/graph.go:337-359 | while a lifecycle step is due no stage can be completed by its trigger |
| `Confluence.RunDry` | graph/graph.go:304-316 | wherever a cascade has come, it can be run until nothing is left to do |
| `Confluence.DryRunsAgree` | graph/graph.go:304-316 | without races, dry runs that go on from graphs alike but for the data of results end in such graphs |
| `Confluence.OutcomeFixedExactly` | graph/graph.go:304-316 | all dry runs of a cascade have the same outcome if and only if no pass of it comes to a race |
| `Confluence.UnambiguousIsRaceFree` | graph/graph.go:263-272 | one inner stage for each pending outer one rules races out, at every point of the cascade |
| `Confluence.InvokedOrNot` | graph/graph.go:304-316 | a composed stage not triggered before and resolved by a cascade is invoked by some dry run and not by another |
| `Confluence.StartFixedExactly` | graph/graph.go:304-316 | whether a stage is invoked does not depend on the order if and only if it was triggered or resolved before or is not resolved along with a stage composed into it |
| `Witnesses.OrderCanMatter` | graph/graph.go:263-272 | a concrete good journal, with a restart and one reply for each request, after which the iteration order decides a success flag for good |
| `Witnesses.CrashIsARestart` | graph/graph.go:276-293 | the restart in that journal is a start as they all are: one lost stage failed, and what follows run dry with nobody invoked twice |
| `Witnesses.FirstOuterIsPassedBy` | graph/graph.go:263-272 | a concrete good journal in which the first of two outer stages is passed by |
| `Witnesses.OtherLostStageIsNotFailed` | graph/graph.go:274-293 | from a concrete journal with two lost stages, however the actor comes back, one is failed and the other pending: requested again if it has a closure, never if it calls a function |
| `Witnesses.StartOrderDecidesRuns` | graph/graph.go:276-293 | from a concrete journal, two starts that fail the same stage: one runs another stage's closure again, the other never does |
| `Witnesses.ReplayWritesAgain` | actor/graph.go:431-439 | a concrete good journal whose replay writes a completion once more |
| `Witnesses.MainStageWaitsForHook` | graph/stage_strategy.go:170-180 | a concrete good journal with a main stage that waits for a hook |
| `Restarts.RestartsAgree` | graph/graph.go:274-293 | two starts from the same journal that fail the same stage, or none, have the same outcome, given unambiguous compose references, and request the same stages but for those resolved along with a stage composed into them |
| `Restarts.RestartsAgreeExactly` | graph/graph.go:274-293 | all starts that fail a given stage have the same outcome if and only if no pass after the failure comes to a race |
| `Restarts.FailedWithTheChosen` | graph/graph.go:276-285 | a recovery fails, with the chosen stage, exactly the lost stages its compose chain reaches, and for good |
| `Restarts.PromiseKept` | graph/graph.go:274-275 | the failure of the chosen stage fails all lost stages exactly when its chain reaches them all |
| `Restarts.LostStageFate` | graph/graph.go:276-293 | the fate of every lost stage: failed on the chain; else a function call stays pending unasked, an immediate stage completes by its trigger, any other is requested again or resolved along with an inner stage |
| `Restarts.LeftUnasked` | graph/stage_strategy.go:108-110 | a lost stage is left pending with nobody asked exactly if it calls a function and was not chosen |
| `Worlds.MeasureDrops` | graph/graph.go:234-251 | pending stages, untriggered stages and lifecycle states ahead bound every cascade |
| `Worlds.CompleteContinues` | graph/graph.go:240-242 | after completing a stage the next outer stage's completion may be journaled and is awaited in turn |
| `Worlds.RequestMade` | actor/graph.go:412-428 | a request for a pending, ready, not yet triggered stage, journaled first, with the arguments its strategy selects, keeps the requests exactly those owed and unique |
| `Worlds.RequestedExactly` | actor/graph.go:412-428 | exactly the stages journaled as started in this generation were requested |
| `Worlds.RecoverFails` | graph/graph.go:276-285 | a pending, ready, untriggered stage may be failed as lost |
| `Worlds.GenerationTriggersOuters` | graph/stage.go:144-158 | within a generation every pending composed stage has been triggered |
| `Worlds.MessageOrderIndependence` | graph/graph.go:304-316 | two executions of a message on the same actor agree on resolved stages, success, triggered stages, requested stages and lifecycle state |
| `Commands.ValidationIsExact` | graph/graph.go:407-483 | an adding command is accepted exactly when its event passes every guard of its handler, its closure fits, the limits are kept and its payload is valid |
| `Commands.AcceptedAdditions` | graph/graph.go:407-460 | a stage may be added exactly while the graph is open, with a known operation, as many existing dependencies as it takes, a closure exactly if it runs one, and within the limits |
| `Commands.AcceptedOthers` | graph/graph.go:447-486 | when the other additions are accepted, and what the other commands are refused for |
| `Commands.ErrorsInOrder` | graph/graph.go:409-445 | the error of a refused addition tells what is wrong with it |
| `Commands.DelaysExactly` | actor/graph.go:353-372 | a delay is running exactly if the journal schedules it, and completes with an empty success |
| `Commands.IdentifiersAreFresh` | graph/graph.go:147-149 | identifiers grow along the journal, so no two stages share one |
| `ActorSteps.CommandOrderIndependence` | actor/graph.go:120-311 | the same command on the same resting actor, executed twice in any iteration orders, has the same answer and the same outcome, given unambiguous compose references |
| `ActorSteps.OneInnerOrderIndependence` | actor/graph.go:292-301 | the same, assuming only that no stage was given two different stages to compose with, however often it was run and answered |
| `Effects.ReplyTaken` | actor/graph.go:292-301 | a reply is journaled first, and a pending stage that takes its reply ends with it |
| `Effects.ReplyIgnored` | graph/stage_strategy.go:151-166 | whenComplete and the hooks end with the result of what they depend on |
| `Effects.ReplyComposes` | graph/stage_strategy.go:130-149 | a composing stage ends with a failed reply or with the error for a reply that names no stage; otherwise the stage named refers to it, and if that is resolved it ends with its result |
| `Effects.CompletionLeaves` | actor/graph.go:233-290 | a pending stage completed from outside ends with the value, a resolved one is left alone |
| `Effects.AdditionLeaves` | actor/graph.go:141-231 | an addition is answered with the next identifier and leaves a stage with the command's operation, closure and dependencies |
| `Effects.ValueLeaves` | actor/graph.go:159-178 | the stage of a given value ends with it |
| `Effects.WaitingLeaves` | actor/graph.go:180-231 | a delay or function call is pending when its command is answered |
| `Effects.ForcesOnlyItsOwn` | actor/graph.go:159-290 | a command completes nobody from outside but the stage it is about |
| `Effects.CommitLeaves` | actor/graph.go:247-260 | a commit is journaled once and leaves a committed graph |
| `Effects.CommandLeaves` | actor/graph.go:120-311 | all of this for whatever command was accepted |
| `Effects.ObeyedKeepsRequested` | graph/graph.go:304-316 | from one message to the next, everybody whose closure is to run has been requested in this generation |
| `Effects.StartRequested` | graph/graph.go:276-293 | the same after a start |
| `ActorSteps.DelayTargetExists` | actor/graph.go:353-372 | a scheduled delay's stage exists |
| `GraphActor.GraphActor.PersistReceive` | persistence/plugin.go:44-54 | appends the event and advances the index |
| `GraphActor.GraphActor.CompleteStage` | graph/stage.go:128-136 | marks the stage triggered; sets the result and tells the future only the first time |
| `GraphActor.GraphActor.RequestTrigger` | graph/stage.go:144-158 | a triggered stage is never ready; otherwise the trigger strategy's answer, marking the stage when ready |
| `GraphActor.GraphActor.OnExecuteStage` | actor/graph.go:412-428 | journals the start, then asks the executor |
| `GraphActor.GraphActor.OnCompleteStage` | actor/graph.go:431-439 | live: journals the completion and runs all that follows until the actor is at rest; replaying: journals it and settles the chain only |
| `GraphActor.GraphActor.OnGraphExecutionFinished` | actor/graph.go:452-464 | live: starts termination and runs what follows to rest; replaying: nothing |
| `GraphActor.GraphActor.OnGraphComplete` | actor/graph.go:466-478 | live: journals completion, asks to be deactivated, and rests; replaying: nothing |
| `GraphActor.GraphActor.HandleStageCompleted` | graph/graph.go:234-251 | terminates, leaves a consistent actor with nothing left to trigger and no lifecycle step due, and everything it journaled follows from the completion |
| `GraphActor.GraphActor.CompleteWithChain` | graph/graph.go:237-242 | the completion and the compose chain above it, live or replayed |
| `GraphActor.GraphActor.TryCompleteComposedStage` | graph/graph.go:297-302 | completes a pending outer stage of a resolved inner one with its result, else nothing |
| `GraphActor.GraphActor.TriggerReadyStages` | graph/graph.go:304-316 | one pass in any order reaches a fixpoint: nobody pending and ready is left untriggered |
| `GraphActor.GraphActor.VisitStage` | graph/graph.go:306-314 | visiting a stage leaves the graph as it is with the stage triggered if ready, or leads to a fixpoint |
| `GraphActor.GraphActor.TriggerStage` | graph/stage.go:166-174 | triggering a ready stage completes it, journals and requests its invocation with the selected arguments, or leaves it to the outside, as its strategy says |
| `GraphActor.GraphActor.GetPendingCount` | graph/graph.go:318-326 | counts the pending stages of a phase |
| `GraphActor.GraphActor.CheckForExecutionFinished` | graph/graph.go:337-359 | takes every lifecycle step that is due, and nothing if none is |
| `GraphActor.GraphActor.HandleTerminating` | graph/graph.go:128-139 | sets the root, triggers the first hook and runs to rest; replaying, only moves the state |
| `GraphActor.GraphActor.HandleStageAdded` | graph/graph.go:153-201 | none of its panics can happen on an admissible event; adds the stage, with the event's operation, closure and dependencies, and triggers what is ready |
| `GraphActor.GraphActor.HandleAddTerminationHook` | graph/graph.go:204-230 | the new hook becomes the chain head and the old head depends on it |
| `GraphActor.GraphActor.HandleStageComposed` | graph/graph.go:263-272 | sets the inner stage's reference to the outer one, and completes the outer stage if the inner one is resolved |
| `GraphActor.GraphActor.OnComposeStage` | actor/graph.go:442-450 | journals and applies the composition, after which the inner stage refers to the outer one; all that follows runs dry |
| `GraphActor.GraphActor.HandleInvokeComplete` | graph/graph.go:255-259 | what a reply leads to by the stage's result handling, run dry; the handler's panics are unreachable |
| `GraphActor.GraphActor.HandleCommitted` | graph/graph.go:106-110 | moves to committed and takes the steps due |
| `GraphActor.GraphActor.Recover` | graph/graph.go:274-293 | all it does: if any stage is lost, exactly one is failed and what follows from that runs dry; otherwise what is due runs dry, and nothing at all if nothing is |
| `GraphActor.GraphActor.FailLostStage` | graph/graph.go:279-283 | fails a stage that could be triggered and runs what follows to rest; any other stage is left alone |
| `GraphActor.GraphActor.ScheduleDelay` | actor/graph.go:353-372 | a timer for the stage, due at the journaled time, with an empty success |
| `GraphActor.GraphActor.ReceiveEvent` | actor/graph.go:67-82 | replaying one event gives the replay of the journal so far, requests nothing, schedules its delay, and journals only the echoes |
| `GraphActor.GraphActor.UpdateWithEvent` | graph/graph.go:362-404 | an event applied without triggering gives the fold's next graph and its echoes |
| `GraphActor.GraphActor.UpdateStructure` | graph/graph.go:368-384 | the same for additions and lifecycle events, which write nothing |
| `GraphActor.GraphActor.constructor` | persistence/plugin.go:61-85 | from any good journal: at rest, every decision kept, delays rescheduled in order, one lost stage failed if there is any and what follows run dry, the very graph of the journal when nothing was lost or due; the event index lags by the echoes |
| `GraphActor.GraphActor.Begin` | actor/graph.go:334-346 | the part of a start that follows the replay |
| `GraphActor.GraphActor.ReplayJournal` | persistence/plugin.go:79-82 | replays the whole journal; the event index follows what was read, not what was written |
| `GraphActor.GraphActor.CreateGraph` | actor/graph.go:127-139 | an empty graph with a one-event journal |
| `GraphActor.GraphActor.AddStageCommand` | actor/graph.go:141-157 | the next identifier is used, the event journaled, and what follows run dry |
| `GraphActor.GraphActor.AddPassiveStage` | actor/graph.go:159-231 | adding a stage that waits for the outside sets nothing off |
| `GraphActor.GraphActor.AddCompletedValueCommand` | actor/graph.go:159-178 | the new stage has the given value |
| `GraphActor.GraphActor.AddDelayCommand` | actor/graph.go:180-200 | the stage and its due time are journaled, a timer started, nothing else happens |
| `GraphActor.GraphActor.AddInvokeFunctionCommand` | actor/graph.go:202-231 | the stage and its start are journaled and the function requested once |
| `GraphActor.GraphActor.CompleteFromOutside` | actor/graph.go:262-290 | an outside completion of a pending stage gives it that result, and what follows runs dry |
| `GraphActor.GraphActor.CommitCommand` | actor/graph.go:247-260 | commits once; a repeated commit changes nothing |
| `GraphActor.GraphActor.InvocationResponseCommand` | actor/graph.go:292-301 | a reply, late or repeated, is journaled with the one event it leads to, and what follows runs dry |
| `GraphActor.GraphActor.CountHooks` | graph/graph.go:436-445 | counts the hooks |
| `GraphActor.GraphActor.ValidateStages` | graph/graph.go:489-496 | whether all named stages exist |
| `GraphActor.GraphActor.ValidateAddition` | graph/graph.go:409-445 | the shared checks on additions, in order |
| `GraphActor.GraphActor.ValidateCommand` | graph/graph.go:407-486 | the error each command is refused with, if any |
| `GraphActor.GraphActor.ReceiveCommand` | actor/graph.go:120-311 | every message leaves the actor at rest: graph and journal agree, each future is told once, requests and timers are exactly those journaled; a refused command changes nothing and says why; an accepted one leaves behind what `Leaves` spells out for each command, completes from outside only its own target, journals its own events and then only what follows from them; nobody whose closure is to run is forgotten |
| `GraphActor.GraphActor.Obey` | actor/graph.go:126-310 | the accepted commands, each with its answer, its own events and what follows from them |
| `GraphActor.GraphActor.ObeyAddition` | actor/graph.go:141-231 | the accepted additions, answered with the new identifier |
| `Streaming.Subscription.constructor` | persistence/streaming.go:73-76 | a subscription starts unfiltered, buffering, with nothing delivered |
| `Streaming.Subscription.WithPredicate` | persistence/streaming.go:90-95 | from here on only matching events get in |
| `Streaming.Subscription.OnPublished` | persistence/streaming.go:76-95 | a published event is filtered, buffered, delivered or skipped |
| `Streaming.Subscription.OnStored` | persistence/streaming.go:98-106 | a stored event is delivered and `highestIndex` set to the start index |
| `Streaming.Subscription.Flush` | persistence/streaming.go:108-114 | everything buffered is delivered in order, and the subscription committed |
| `Streaming.DeliveredIsLog` | persistence/streaming.go:64-115 | over every interleaving: the exact sequence of the actor's events a live subscriber was given, and exactly what got in before the filter |
| `Streaming.DeliveryCount` | persistence/streaming.go:64-115 | how often each event was given |
| `Streaming.NothingIsLost` | persistence/streaming.go:64-115 | every published event from the start index on was given |
| `Streaming.RepeatedExactly` | persistence/streaming.go:98-112 | no event is given more than twice, and twice exactly if published after subscribing and stored before the read, but for the one at the start index published after the flush |
| `Streaming.FirstDeliveriesInOrder` | persistence/streaming.go:98-112 | in every state of every run, an event is given only after all its predecessors from the start index on |
| `Streaming.OnlyWantedEvents` | persistence/streaming.go:76-95 | a live subscriber was given only wanted events exactly when nothing else was published between subscribing and filtering |
| `Streaming.StrangerIsDelivered` | persistence/streaming.go:76-95 | a run in which another actor's event is delivered |
| `Streaming.FlushRepeats` | persistence/streaming.go:98-112 | a run in which an event is delivered twice |
| `Streaming.HeardExactly` | persistence/streaming.go:76-95 | of events published with an index that lags behind their position, a filtered subscription is given or buffers exactly those from one position on |
| `Streaming.LagLoses` | persistence/streaming.go:76-95 | a live subscriber is given all that is published from the start index on if and only if none of it lies before that position |
| `Journals.InMemoryProvider.constructor` | persistence/in_memory_provider.go:26-31 | no journals |
| `Journals.InMemoryProvider.LoadOrInit` | persistence/in_memory_provider.go:33-46 | an unknown actor gets an empty journal and no journal changes |
| `Journals.InMemoryProvider.GetEvents` | persistence/in_memory_provider.go:73-81 | a read hands over the events from the start index on, in order, with indices counted from there, and changes no journal |
| `Journals.InMemoryProvider.PersistEvent` | persistence/in_memory_provider.go:84-87 | appends to the actor's journal and touches no other |
| `Journals.IndicesAreAbsolute` | persistence/in_memory_provider.go:78-80 | its indices are journal positions exactly for reads from the start and reads that return nothing |
| `Journals.ReadBack` | persistence/in_memory_provider.go:73-87 | what is persisted is read back last, at its position |
| `Journals.MiddleReadMislabels` | persistence/in_memory_provider.go:78-80 | a read from the middle that tells the wrong index |
| `Names.ItoaRoundTrip` | graph/graph.go:147-149 | numerals read back as the number they were printed from |
| `Names.NumberedNamesDiffer` | cluster/cluster.go:32-34 | names of the same prefix and different numbers differ |
| `Routing.XorBits` | sharding/sharding.go:33-35 | the xor of the halves, bit by bit |
| `Routing.FoldedFits` | sharding/sharding.go:33-36 | the folded identifier fits 64 bits, so nothing wraps around |
| `Routing.FoldedBits` | sharding/sharding.go:33-35 | bit `b` of octet `i` of the folded identifier is set exactly if it differs between octets `i` and `8 + i` of the identifier |
| `Routing.ShardOfBits` | sharding/sharding.go:33-36 | the shard is the remainder of the one 64-bit number with those bits |
| `Routing.ShardHasBits` | sharding/sharding.go:33-36 | there is such a number for every identifier |
| `Routing.LastOctetCounts` | sharding/sharding.go:33-36 | an identifier whose second half decides its shard |
| `Routing.ShardId` | sharding/sharding.go:28-40 | a shard below the shard count for every valid identifier, an error for every other |
| `Routing.EveryShardIsUsed` | sharding/sharding.go:28-40 | every shard is the shard of some flow |
| `Routing.ShardsArePartitioned` | cluster/cluster.go:66-74 | each shard is served by exactly one node |
| `Routing.Manager.constructor` | cluster/cluster.go:45-63 | every node's proxy is filed under its name; no name overwrites another |
| `Routing.Manager.LocalShards` | cluster/cluster.go:66-74 | exactly the node's shards, ascending |
| `Routing.Manager.ResolveNode` | cluster/cluster.go:94-102 | the node that serves the flow's shard, or the parse error |
| `Routing.Manager.GetClient` | cluster/cluster.go:77-84 | the proxy of the node that serves the flow |
| `Routing.GraphManager.constructor` | actor/api.go:63-76 | one supervisor per local shard, all with different names |
| `Routing.GraphManager.LookupSupervisor` | actor/api.go:184-203 | succeeds exactly for valid flows of local shards, with that shard's supervisor |
| `Routing.Deliver` | cluster/cluster.go:77-102 | routing agrees with ownership: on every node, the supervisor lookup succeeds exactly if the flow was routed there |

## Left out

- Stages refer to each other by identifier, not by pointer; identifiers are the numbers their numerals print.
- Timestamps, logging, `startTime`, the unused `children` lists, call and code identifiers of invocations, and graph state queries.
- Snapshots and `QueryActorJournal`: the graph actor ignores snapshots, and a query is a filtered read.
- The executor, HTTP, gRPC, streaming channels, blob stores, supervisors' own state, and receive timeouts.
- The SQL journal. It overwrites the row at the event index, and a replay that writes echoes does so at indices already taken; the model's journal appends, as the in-memory one does.
- At-most-once execution across generations: it does not hold, because recovery runs lost stages again; within a generation it does.
- Restarts.LostStageFate: which value a spared stage that completes at once ends with is its own strategy's and may again be a lost stage's failure handed on; whether a stage resolved along with an inner one had been run again first depends on the order.
- Cascades.OrderIndependence: success flags, not data, because `triggerAny` hands on the first success it finds when it is visited.
- Confluence.OutcomeFixedExactly: its passes are all the sequences of events that the handlers' guards admit; that the code's nested passes can make each of them is not stated.
- GraphActor.GraphActor.AddInvokeFunctionCommand: the request to the executor says for which stage, not which function and with what argument (actor/graph.go:224-229), because the model does not keep the command's function identifier and payload.
- GraphActor.GraphActor.Recover: which of the lost stages fails depends on the iteration order and is not determined.
- GraphActor.GraphActor.ReceiveCommand: requires a reply to belong to an invoked stage and a timer to a scheduled delay, as the executor and the timers guarantee.
- Routing.ShardId: starts from the parsed identifier; the text format of a UUID is a library's.
- Streaming.DeliveredIsLog: assumes that published indices are journal positions, which a start that wrote echoes does not keep; what is then lost is stated for one stretch of publications (`Streaming.HeardExactly`), not for every interleaving.
