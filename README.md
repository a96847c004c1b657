# orch_serv in Dafny

orch_serv is an in-process message router. This project models its core and proves properties of the model. The core has five parts:

- **Blocks** (`SyncBlock`, `AsyncBlock` and the older `SyncBlock` of `syncblock.py`) form a chain of responsibility. Each block has an optional pre-hook and post-hook, a `process` step and a pointer to the next block. `handle` uses the message's `source` field as a resume cursor:
  - an empty source runs the receiving block;
  - the block's own name runs its successor;
  - any other source is passed down the chain;
  - the tail raises `FlowException`.
- **Flows** (`FlowBlock`, `FlowBuilder`, `Flow`, `SyncFlow`, `AsyncFlow`) turn an ordered list of block classes or instances into a linked chain. They optionally suffix block names with the step number, then check that every block has the flow's class and that no name repeats.
- **Orchestrators** (`Orchestrator`, `SyncOrchestrator`, `AsyncOrchestrator`) build name → entry registries of flows and blocks from a module or a list, honouring ignore lists and a uniqueness check. They validate types and default names. `handle` routes a message to its target, else to its flow, falling back to a default. On first use a registered class is replaced by an instance, and exceptions are swallowed.
- **Service** (`ServiceBlock`, `ServiceBuilder`, `Service`, `AsyncService`, `CommandHandler`) builds a command → (processor, post-processor) table. `handle` looks up the message's command (exact name, then the default command) and runs the processor, then the post-processor. It applies a catch or re-raise policy. Handlers also reach a key/value "swap scope" on their service.
- **Stepper** (`Step`, `StepsBuilder`, `StepsIterator`, `Stepper` and the checks in `stepper/utils.py`) is a pipeline. Each step's non-empty result feeds the next step. Parameter lists are checked against keyword arguments and against the previous step's return annotation when the pipeline is built.

## How the model is organised

Objects the source updates in place are Dafny classes whose methods carry `modifies` clauses:

- blocks (`Blocks.Block`), messages (`Messages.Message`), flow builders and flows;
- the orchestrator with its registries;
- handlers, service blocks, builders and services;
- the steps builder, the steps iterator and the stepper.

Each such method is proved against a specification function over values:

- `Blocks.HandleSpec` and `Blocks.Logic` for a chain of block states;
- `Flows.BuildSpec`, `Flows.CheckFrom` and `Flows.FlowSpec`;
- `Generate.GenerateSpec`, `Registry.InitSpec` and `Registry.RouteOf`;
- `Services.BuildSpec`, `Services.BuilderSpec` and `Services.HandleSpec`;
- `Steppers.BuildStepsSpec` and `Steppers.RunSpec`.

Lemmas then state what the source promises about those functions.

User code is abstract:

- `process`, hooks and `post_process` are records of what they do: return a message, return nothing or raise. Each has a tag. Every call is appended to a trace of events, so call-order facts from the test-suite become provable. Most calls are `Call(tag, message)`. A service's `post_process` is `PostCall(tag, message, data)`, where `data` is the additional data unpacked from the processor's reply, or none.
- A stepper step function is a parameter `run: Invocation -> Reply`.

Async variants are the same sequential algorithm with `await` erased. They keep a `Sync`/`Async` tag for the class checks. An empty string stands for a `source`, `flow`, `target`, `command` or default name that is `None`.

Files: `common.dfy`, `messages.dfy`, `blocks.dfy`, `flows.dfy`, `generate.dfy`, `registry.dfy`, `orchestrator.dfy`, `service.dfy`, `stepper_utils.dfy`, `stepper.dfy`. The test-suite's scenarios are replayed in `scenarios_blocks.dfy`, `scenarios_flows.dfy` and `scenarios_stepper.dfy`.

## Model

| member | source | states |
|---|---|---|
| Common.Suffixed | orch_serv/orchestrator/flow/base_flow.py:123-124 | the suffixed name starts with the block name followed by `_` |
| Common.SuffixedJointlyInjective | orch_serv/orchestrator/flow/base_flow.py:123-124 | two suffixed names are equal only when both the names and the step numbers are equal |
| Common.SuffixedInjective | orch_serv/orchestrator/flow/base_flow.py:123-124 | one name suffixed with two different step numbers gives two different names |
| Common.NatToString | orch_serv/orchestrator/flow/base_flow.py:124 | the decimal text of a step number is non-empty, and one character long exactly below 10 |
| Common.NatToStringInjective | orch_serv/orchestrator/flow/base_flow.py:124 | different step numbers have different decimal texts |
| Common.Put | orch_serv/orchestrator/orchestrator/orchestrator.py:182-185 | storing a key in an insertion-ordered dict updates the entry and appends the key only when it is new |
| Messages.Message.constructor | orch_serv/msg/message.py:15-56 | a new message has exactly the given fields |
| Messages.Message.SetSource | tests/settings/settings_test_block.py:26-27 | `set_source` changes the source field and nothing else |
| Blocks.SetHook | orch_serv/orchestrator/block/sync_block.py:76-118 | a falsy value keeps the current hook; a function or method (on an async block also a coroutine object) replaces it; anything else, and only that, raises TypeError |
| Blocks.StoredHook | orch_serv/orchestrator/block/async_block.py:99-106 | a function or method is stored as the user's hook; a coroutine object becomes a hook that raises TypeError when called |
| Blocks.CoroutineHookRaisesTypeError | orch_serv/orchestrator/block/async_block.py:190-211 | the async setter accepts a coroutine object, and `_process_logic` then fails with TypeError: as the pre-hook before `process` runs, as the post-hook after a `process` that returned a message |
| Blocks.Block.constructor | orch_serv/orchestrator/block/sync_block.py:120-142 | a block built without hooks has its class's name, `process` and flag, no hooks and no next block |
| Blocks.Block.Instantiate | orch_serv/orchestrator/block/sync_block.py:120-142 | construction succeeds exactly when the class's `__init__` does not raise and both hook arguments are accepted; the error is the user's exception or TypeError; the new block holds the hooks `SetHook` gives |
| Blocks.Block.SetPreHandlerFunction | orch_serv/orchestrator/block/sync_block.py:76-96 | the pre-hook becomes what `SetHook` gives; on TypeError it is unchanged |
| Blocks.Block.SetPostHandlerFunction | orch_serv/orchestrator/block/sync_block.py:98-118 | the post-hook becomes what `SetHook` gives; on TypeError it is unchanged |
| Blocks.Block.SetNext | orch_serv/orchestrator/block/sync_block.py:144-173 | links exactly a block instance, or an instantiable block class, of the same base; the older `SyncBlock` links only instances; a class argument becomes a fresh block; on error the next pointer is unchanged and the error is TypeError or the constructor's exception; the returned block is the one linked |
| Blocks.Block.Process | orch_serv/orchestrator/block/sync_block.py:191 | `process` is called once with the current message and its result is the block's |
| Blocks.Block.ProcessLogic | orch_serv/orchestrator/block/sync_block.py:175-196 | the outcome, the message afterwards and the calls made are those of `Logic` on the block states |
| Blocks.Block.Handle | orch_serv/orchestrator/block/sync_block.py:198-215 | the outcome, the message afterwards and the calls made are those of `HandleSpec` on the chain's block states from this block on |
| Blocks.Block.ListFlow | orch_serv/orchestrator/block/sync_block.py:217-226 | the names of this block and every block after it, then `end`, joined by ` -> ` |
| Blocks.Names | orch_serv/orchestrator/block/sync_block.py:217-226 | the names of a chain, in chain order |
| Blocks.FindName | orch_serv/orchestrator/block/sync_block.py:210-213 | the first block at or after `i` with a given name, or none when no block there has it |
| Blocks.HandleResumesAfterSource | orch_serv/orchestrator/block/sync_block.py:210-213 | a source naming a later block runs that block's successor, using the flag of the block it names, and never runs the blocks passed over; with no successor it fails reading `None` |
| Blocks.HandleUnknownSourceRaises | orch_serv/orchestrator/block/sync_block.py:212-215 | a source naming no block from here on raises FlowException, runs nothing and leaves the message as it was |
| Blocks.HandleEmptySourceRunsSelf | orch_serv/orchestrator/block/sync_block.py:208-209 | an empty source runs the receiving block itself and, unless its pre-hook stops, stamps the block's name as source |
| Blocks.LogicCallOrder | orch_serv/orchestrator/block/sync_block.py:185-196 | pre-hook on the message, `process` on the stamped message, then the post-hook on `process`'s result, or on the copy when the runner's flag says so |
| Blocks.LogicPreHookStops | orch_serv/orchestrator/block/sync_block.py:185-188 | a pre-hook returning nothing stops: only the pre-hook is called and the message is not stamped |
| Blocks.ResumeReadsPredecessorFlag | orch_serv/orchestrator/block/sync_block.py:195 | on resume, the post-hook of the block run gets the copy because of the flag of the block named in the source, although its own flag is off |
| Flows.NewFlowBlock | orch_serv/orchestrator/flow/base_flow.py:30-65 | accepts exactly a block class or instance and keeps it with the two hook references; anything else raises FlowBlockException |
| Flows.GetFunction | orch_serv/orchestrator/flow/base_flow.py:67-85 | a hook given by name is the flow's attribute of that name, or none when there is no such attribute; a hook given directly is kept |
| Flows.MissingHooksKept | orch_serv/orchestrator/flow/base_flow.py:67-125 | hook names that the flow does not define resolve to none, and initialising an instance step still succeeds, with only its name suffixed |
| Flows.FlowBuilder.constructor | orch_serv/orchestrator/flow/base_flow.py:134-144 | a builder holds the given steps |
| Flows.FlowBuilder.Create | orch_serv/orchestrator/flow/base_flow.py:134-144 | fails exactly when some argument is not a `FlowBlock`, naming the first such index; otherwise keeps the steps in argument order |
| Flows.FlowBuilder.InstantiateStep | orch_serv/orchestrator/flow/base_flow.py:87-125 | a class step becomes a fresh block with the resolved hooks and, when suffixing, the step number in its name; it fails as `StepInit` says |
| Flows.FlowBuilder.ReinitStep | orch_serv/orchestrator/flow/base_flow.py:102-125 | an instance step gets its hooks set again through the setters (which keep the old hook when the resolved one is falsy) and its name suffixed again, as `Reinit` says |
| Flows.FlowBuilder.InitBlock | orch_serv/orchestrator/flow/base_flow.py:87-125 | `init_block` on step `i`: the step's block state becomes `StepInit` of the old state; a class slot is overwritten by the new instance; other steps and the links are unchanged |
| Flows.FlowBuilder.LinkTo | orch_serv/orchestrator/flow/base_flow.py:155-158 | links the previous block to the new one exactly when their bases agree, else TypeError with the links unchanged |
| Flows.FlowBuilder.LinkStep | orch_serv/orchestrator/flow/base_flow.py:152-158 | one iteration of `build_flow`: initialise step `i` and link step `i-1` to it; it fails with the step's error or TypeError |
| Flows.FlowBuilder.Advance | orch_serv/orchestrator/flow/base_flow.py:152-158 | one iteration keeps the loop invariant: the blocks so far are the states `BuildSpec` computes, linked in order |
| Flows.FlowBuilder.BuildStart | orch_serv/orchestrator/flow/base_flow.py:146-151 | initialising step 0 gives the first state of `BuildSpec` or its error |
| Flows.FlowBuilder.BuildStep | orch_serv/orchestrator/flow/base_flow.py:152-158 | a loop step agrees with `BuildFrom` one position further |
| Flows.FlowBuilder.BuildRest | orch_serv/orchestrator/flow/base_flow.py:152-159 | the rest of the loop ends with `BuildSpec`'s result and a fully linked chain |
| Flows.FlowBuilder.BuildFlow | orch_serv/orchestrator/flow/base_flow.py:146-159 | `build_flow` returns the head of a chain whose block states are `BuildSpec` of the steps' states on entry, linked in builder order, or `BuildSpec`'s error; a builder already linked keeps its steps and links |
| Flows.BuildFromOk | orch_serv/orchestrator/flow/base_flow.py:146-159 | the build succeeds exactly when every step initialises and each block has the base of the one before it |
| Flows.BuildFromStates | orch_serv/orchestrator/flow/base_flow.py:146-159 | a successful build holds, at each position, the state that step initialises to |
| Flows.BuildFromNext | orch_serv/orchestrator/flow/base_flow.py:152-158 | one step of the build: the step's error, TypeError on a base mismatch, else the rest of the build |
| Flows.BuildSpecOk | orch_serv/orchestrator/flow/base_flow.py:146-159 | the whole build succeeds exactly when it is buildable, with one block per step in builder order |
| Flows.BuildNames | orch_serv/orchestrator/flow/base_flow.py:123-124 | with suffixing each block is named `<name>_<i>` for its position `i`; without it names are unchanged |
| Flows.RelinkedKeeps | orch_serv/orchestrator/flow/base_flow.py:152-158 | a block that no link leaves from, such as the last step's block when it appears once, keeps the link it had before the build |
| Flows.RelinkedDistinct | orch_serv/orchestrator/flow/base_flow.py:152-158 | with distinct blocks, each step's block ends linked to the next step's block |
| Flows.RepeatedBlockShortensChain | orch_serv/orchestrator/flow/base_flow.py:152-158 | steps `[a, b, a, c]` leave `a` linked to `c`, so `b` drops out of the chain |
| Flows.RepeatedBlockLoops | orch_serv/orchestrator/flow/base_flow.py:152-158 | steps `[b, b]` link `b` to itself |
| Flows.SharedBlockRelinked | orch_serv/orchestrator/flow/base_flow.py:152-158 | a block shared by two flows is re-linked by the second build, which changes the first flow's chain |
| Flows.CheckFromPass | orch_serv/orchestrator/flow/base_flow.py:235-253 | validation passes exactly when every block has the flow's class and no name repeats; it fails with WorkTypeMismatchException or with NotUniqueBlockInFlowError naming a repeated name |
| Flows.CheckSpecPass | orch_serv/orchestrator/flow/base_flow.py:235-253 | the same for the whole chain |
| Flows.DuplicatesNeverClash | orch_serv/orchestrator/flow/base_flow.py:123-124 | with suffixing the names are always distinct, so only a class mismatch can fail validation |
| Flows.FlowSpecOk | orch_serv/orchestrator/flow/base_flow.py:218-253 | a valid flow's chain has one block per step, each of the flow's block class, with distinct names |
| Flows.Flow.constructor | orch_serv/orchestrator/flow/base_flow.py:218-233 | a flow holds its class and the head of its chain |
| Flows.Flow.Create | orch_serv/orchestrator/flow/base_flow.py:218-233 | a missing `name_flow` or `steps_flow` raises NotImplementedError; steps that are not a builder raise TypeError; otherwise the flow is built and validated as `FlowSpec` says |
| Flows.Flow.CreateFrom | orch_serv/orchestrator/flow/base_flow.py:225-233 | build then validate agrees with `FlowSpec` of the steps' states on entry |
| Flows.Flow.Validated | orch_serv/orchestrator/flow/base_flow.py:233-253 | a flow object exists exactly when the chain passes `CheckFrom`; otherwise the check's error |
| Flows.Flow.ValidateData | orch_serv/orchestrator/flow/base_flow.py:235-253 | the loop over the chain agrees with `CheckFrom` for the flow's block class |
| Flows.Flow.ToGoWithTheFlow | orch_serv/orchestrator/flow/sync_flow.py:22-29 | the outcome, message and calls are exactly those of the head block's `handle`; errors propagate |
| Flows.Flow.GetSteps | orch_serv/orchestrator/flow/base_flow.py:255-260 | the chain's names, then `end`, joined by ` -> ` |
| Generate.ItemsOf | orch_serv/orchestrator/orchestrator/orchestrator.py:174-186 | a list is walked as it is; a module's classes go through the same checks as listed classes |
| Generate.Step | orch_serv/orchestrator/orchestrator/orchestrator.py:174-210 | one iteration keeps the dict well formed |
| Generate.GenerateFrom | orch_serv/orchestrator/orchestrator/orchestrator.py:174-210 | the loop keeps the dict well formed |
| Generate.GenerateData | orch_serv/orchestrator/orchestrator/orchestrator.py:144-216 | the imperative `_generate_data` agrees with `GenerateSpec` |
| Generate.KeptItems | orch_serv/orchestrator/orchestrator/orchestrator.py:174-210 | only elements that are registered are kept |
| Generate.GenerateFromOkIff | orch_serv/orchestrator/orchestrator/orchestrator.py:174-210 | the loop succeeds exactly when no element is rejected and the identifiers registered are distinct |
| Generate.GenerateFromKeys | orch_serv/orchestrator/orchestrator/orchestrator.py:174-210 | the keys are those so far followed by the kept elements' identifiers, in order |
| Generate.GenerateFromKeepsAcc | orch_serv/orchestrator/orchestrator/orchestrator.py:174-210 | entries registered earlier are never overwritten |
| Generate.GenerateFromEntries | orch_serv/orchestrator/orchestrator/orchestrator.py:182-206 | every kept element is registered under its identifier |
| Generate.KeptFromItems | orch_serv/orchestrator/orchestrator/orchestrator.py:174-210 | every kept element comes from the argument |
| Generate.GenerateSpecOkIff | orch_serv/orchestrator/orchestrator/orchestrator.py:144-216 | neither list nor module raises WrongTypeException; otherwise success exactly when nothing is rejected, identifiers are distinct and something remains; with nothing left it raises NoDateException |
| Generate.GenerateSpecResult | orch_serv/orchestrator/orchestrator/orchestrator.py:144-216 | the registry's keys are the kept identifiers in order, each mapped to its element |
| Generate.GeneratedEntriesFromData | orch_serv/orchestrator/orchestrator/orchestrator.py:144-216 | every registered entry comes from a kept element with that identifier |
| Generate.SyncGenerateSkipsIgnoredIds | orch_serv/orchestrator/orchestrator/sync_orchestrator.py:220-251 | in `SyncOrchestrator` no registered identifier is in the ignore list |
| Generate.GenerateSkipsIgnoredClasses | orch_serv/orchestrator/orchestrator/orchestrator.py:174-202 | no registered element's class name is in the ignore list |
| Registry.CheckTypes | orch_serv/orchestrator/orchestrator/orchestrator.py:120-139 | passes exactly when every entry matches the expected class, else WorkTypeMismatchException |
| Registry.ValidateSpec | orch_serv/orchestrator/orchestrator/orchestrator.py:107-141 | passes exactly when every target is a `SyncBlock` class or instance and every flow a `SyncFlow` one, else WorkTypeMismatchException |
| Registry.InitEstablishes | orch_serv/orchestrator/orchestrator/orchestrator.py:39-91 | a constructed orchestrator has well-formed registries, at least one entry, only matching entries, and its given default names, which are registered |
| Registry.FalsyFlowsSkipped | orch_serv/orchestrator/orchestrator/orchestrator.py:51-72 | a falsy `flows` that is not a list, such as `()`, is skipped like None, so with no blocks `__init__` raises NoDateException, not WrongTypeException |
| Registry.TruthyOtherFlowsRaise | orch_serv/orchestrator/orchestrator/orchestrator.py:51-213 | a truthy `flows` that is neither a module nor a list raises WrongTypeException |
| Registry.InitWithoutDataRaises | orch_serv/orchestrator/orchestrator/orchestrator.py:67-72 | neither flows nor blocks (nor, in `SyncOrchestrator`, class-level ones) raises NoDateException |
| Registry.InitUnknownDefaultRaises | orch_serv/orchestrator/orchestrator/orchestrator.py:73-86 | a default flow or block that is not registered raises NotFoundDefaultError |
| Registry.RouteLands | orch_serv/orchestrator/orchestrator/orchestrator.py:244-304 | a target wins over a flow, a registered name is used as it is, and every route lands on a registered entry |
| Registry.UnroutedExactly | orch_serv/orchestrator/orchestrator/orchestrator.py:248-312 | a message goes nowhere exactly when it names nothing, or names an unknown target (or, with no target, flow) and no default applies |
| Registry.AsyncIgnoresDefaults | orch_serv/orchestrator/orchestrator/async_orchestrator.py:37-77 | `AsyncOrchestrator` routes as if it had no defaults |
| Orchestrators.TargetHandled | orch_serv/orchestrator/orchestrator/orchestrator.py:248-274 | a target class whose constructor raises propagates the error; otherwise `process` runs once, an exception is swallowed, and the message is returned exactly when forced, when `process` raised, or in `AsyncOrchestrator`, whose `await` on a sync block's result always raises a caught TypeError |
| Orchestrators.FlowHandled | orch_serv/orchestrator/orchestrator/orchestrator.py:278-304 | a flow that cannot be built propagates its error; otherwise the chain runs, and the message is returned exactly when forced, when the chain failed, or in `AsyncOrchestrator`, whose `await` on the None a sync flow returns always raises a caught TypeError; the calls and the message are the chain's |
| Orchestrators.AsyncHandleReturnsMessage | orch_serv/orchestrator/orchestrator/async_orchestrator.py:50-105 | once the target or the flow object is made, `AsyncOrchestrator` returns the message whatever `process` or the chain did, with the same calls as the synchronous orchestrators |
| Orchestrators.GenerateRegistry | orch_serv/orchestrator/orchestrator/orchestrator.py:51-66 | each registry is generated from its argument, or is empty when there is none; a falsy argument (None, `[]`, `()`, `{}`, `""`) counts as none |
| Orchestrators.Configured | orch_serv/orchestrator/orchestrator/orchestrator.py:67-86 | the empty check, the type validation and the default checks agree with `Configure` |
| Orchestrators.Initialised | orch_serv/orchestrator/orchestrator/sync_orchestrator.py:47-133 | the whole of `__init__`, with the `SyncOrchestrator` property fallback, agrees with `InitSpec` |
| Orchestrators.RegistryEntriesOk | orch_serv/orchestrator/orchestrator/orchestrator.py:144-216 | registered flow entries come from the argument, so they keep its heap properties |
| Orchestrators.CreateFlow | orch_serv/orchestrator/orchestrator/orchestrator.py:288-292 | instantiating a registered flow class agrees with `Flow.Create` |
| Orchestrators.CreateAmong | orch_serv/orchestrator/orchestrator/orchestrator.py:288-292 | the same among all registered builders, which stay well formed |
| Orchestrators.CreateKeeping | orch_serv/orchestrator/orchestrator/orchestrator.py:288-292 | the same, leaving the other builders as they were |
| Orchestrators.CreateOwn | orch_serv/orchestrator/orchestrator/orchestrator.py:288-292 | the same for one builder |
| Orchestrators.Orchestrator.Init | orch_serv/orchestrator/orchestrator/orchestrator.py:39-91 | a new orchestrator holds the configuration computed |
| Orchestrators.Orchestrator.New | orch_serv/orchestrator/orchestrator/orchestrator.py:39-91 | construction succeeds exactly when `InitSpec` does, with its error otherwise, and the orchestrator holds its configuration |
| Orchestrators.Orchestrator.ListFlows | orch_serv/orchestrator/orchestrator/orchestrator.py:93-98 | the registered flow names, each once |
| Orchestrators.Orchestrator.ListBlocks | orch_serv/orchestrator/orchestrator/orchestrator.py:100-105 | the registered block names, each once |
| Orchestrators.Orchestrator.HandleTarget | orch_serv/orchestrator/orchestrator/orchestrator.py:248-274 | runs as `TargetHandled` says; a class entry is replaced by a fresh instance under the memo key, and nothing else is registered |
| Orchestrators.Orchestrator.MemoiseTarget | orch_serv/orchestrator/orchestrator/orchestrator.py:262 | `self._targets[key] = block` |
| Orchestrators.Orchestrator.Memoise | orch_serv/orchestrator/orchestrator/orchestrator.py:292 | `self._flows[key] = flow` |
| Orchestrators.Orchestrator.Run | orch_serv/orchestrator/orchestrator/orchestrator.py:293-304 | runs a flow as `FlowHandled` says, leaving the registries alone |
| Orchestrators.Orchestrator.HandleFlow | orch_serv/orchestrator/orchestrator/orchestrator.py:278-304 | runs as `FlowHandled` says; a class entry that builds is replaced by its flow object under the memo key |
| Orchestrators.Orchestrator.HandleClass | orch_serv/orchestrator/orchestrator/orchestrator.py:288-304 | the same for a registered class |
| Orchestrators.Orchestrator.RunClass | orch_serv/orchestrator/orchestrator/orchestrator.py:288-304 | builds the class and runs the message through it |
| Orchestrators.Orchestrator.MakeFlow | orch_serv/orchestrator/orchestrator/orchestrator.py:288-292 | `c()` for a registered class agrees with `CreateSpec` |
| Orchestrators.Orchestrator.Handle | orch_serv/orchestrator/orchestrator/orchestrator.py:218-316 | a non-message raises TypeError (AttributeError in `AsyncOrchestrator`); an unrouted message is returned untouched; otherwise the route `RouteOf` picks runs as `TargetHandled`/`FlowHandled` say (in `AsyncOrchestrator` the message is then always returned, its `await` on a sync result raising a caught TypeError), and only the chosen registry changes, by memoising under `MemoKey` (the requested name, or the instance's own name in `SyncOrchestrator`) |
| Services.Handler.constructor | orch_serv/service/service.py:24-64 | a new handler has no service |
| Services.Handler.SetServiceInstance | orch_serv/service/service.py:62-64 | a service is stored; anything else is ignored |
| Services.Handler.SetToSwapScope | orch_serv/service/service.py:66-86 | stores the key in the service's swap scope and reports success, or reports failure with no service; only the service's swap scope may change, so the handler and every other field are untouched |
| Services.Handler.GetFromSwapScope | orch_serv/service/service.py:88-111 | the stored value, or none when the key or the service is missing |
| Services.Handler.DelFromSwapScope | orch_serv/service/service.py:113-130 | removes the key and reports whether it was there; only the service's swap scope may change |
| Services.GetAfterSet | orch_serv/service/service.py:66-111 | after a set, a get of the key returns the value and other keys are unchanged |
| Services.DelReportsPresence | orch_serv/service/service.py:88-130 | a delete reports success exactly when a get would have found the key, and the key is gone afterwards |
| Services.NoInstanceFails | orch_serv/service/service.py:66-130 | with no service instance every swap operation reports failure |
| Services.SetThenDelete | orch_serv/service/service.py:66-130 | set then delete succeeds and leaves the scope without the key |
| Services.CheckHandler | orch_serv/service/service.py:259-339 | errors are ServiceBlockException, or the user's exception from a class's constructor |
| Services.CheckHandlerKeepsRole | orch_serv/service/service.py:259-339 | an accepted handler has the role asked for; a handler of another role raises ServiceBlockException; a matching instance is kept as it is |
| Services.Realise | orch_serv/service/service.py:270-294 | a class becomes a fresh instance without a service; an instance is kept |
| Services.ServiceBlock.Empty | orch_serv/service/service.py:341-362 | a new block has neither processor nor post-processor |
| Services.ServiceBlock.SetProcessor | orch_serv/service/service.py:259-294 | the processor becomes the accepted handler; on error it is unchanged |
| Services.ServiceBlock.SetPostProcessor | orch_serv/service/service.py:296-339 | `None` leaves the post-processor unset; otherwise as for the processor |
| Services.ServiceBlock.New | orch_serv/service/service.py:341-362 | the block exists exactly when the processor is accepted and the post-processor is `None` or accepted; it holds them |
| Services.FirstHandlerAt | orch_serv/service/service.py:447-463 | the position of the first argument that is not a block |
| Services.ScanCollects | orch_serv/service/service.py:447-463 | the loop keeps the blocks in order; a bare post-processor becomes the default; a second one raises DoublePostProcessFunctionDeclaredError |
| Services.ScanDoubleRaises | orch_serv/service/service.py:447-463 | with a default already set any bare post-processor raises DoublePostProcessFunctionDeclaredError |
| Services.ScanRejectsOthers | orch_serv/service/service.py:455-461 | an argument that is neither block nor post-processor raises TypeError |
| Services.NoBlocksRaises | orch_serv/service/service.py:462-463 | a builder without blocks raises EmptyCommandsException |
| Services.NoBlocksScanned | orch_serv/service/service.py:447-463 | arguments without blocks collect no blocks |
| Services.ServiceBuilder.Empty | orch_serv/service/service.py:433-446 | a new builder has no blocks and no default |
| Services.DefaultSpec | orch_serv/service/service.py:378-401 | a falsy `default_post_process` (None, `0`, `""`) leaves the default unset; a truthy one must pass `check_is_post_processor`, and another truthy value raises ServiceBlockException |
| Services.ServiceBuilder.New | orch_serv/service/service.py:433-464 | the builder exists exactly when `BuilderSpec` succeeds, with its blocks and default; a falsy `default_post_process` leaves no default |
| Services.ServiceBuilder.Build | orch_serv/service/service.py:466-497 | the table is `BuildSpec` of the blocks' handlers, and every registered handler holds the service |
| Services.BuildFromOk | orch_serv/service/service.py:475-497 | the loop succeeds exactly when no command repeats and every block has a post-processor or there is a default |
| Services.BuildFromRegisters | orch_serv/service/service.py:475-497 | a successful loop registers every block's command with its processor and its own post-processor or the default |
| Services.BuildTable | orch_serv/service/service.py:466-497 | `build` succeeds exactly when commands are distinct and every block gets a post-processor; the keys are the commands in block order, each with its block's processor and its own post-processor or the default |
| Services.UnknownCommandReturnsMessage | orch_serv/service/service.py:633-635 | no command returns the message and calls nothing |
| Services.HandleResult | orch_serv/service/service.py:605-640 | the message is returned when forced or when processing raised; an exception is re-raised exactly when it is not caught (corrected unpacking of a bare message, see "## Findings") |
| Services.PostProcessCalledIff | orch_serv/service/service.py:610-622 | `process` is called first; `post_process` is called, with the response message and the additional data of a `(msg, data)` reply (none for a bare message, the corrected reading under "## Findings"), exactly when the response is truthy, carries a message and there is a post-processor |
| Services.MessageReplyMisunpacked | orch_serv/service/service.py:610-623 | as written, a bare message reply is unpacked by iterating its fields: with two fields `post_process` gets the field pairs, with any other count the ValueError is caught by `except Exception` and `post_process` is skipped, so the message is returned or the error re-raised; other replies run as in `HandleSpec` |
| Services.Service.Init | orch_serv/service/service.py:500-535 | a new service has no commands and no default |
| Services.Service.New | orch_serv/service/service.py:500-583 | construction succeeds exactly when the chosen builder builds, the default command is registered and every command fits the variant; the service holds the table, and every handler in it holds this service |
| Services.Service.Assemble | orch_serv/service/service.py:524-535 | keeps the builder; succeeds exactly when it builds and `Configure` accepts the table; every registered handler then holds this service |
| Services.Service.Setup | orch_serv/service/service.py:528-535 | the default command and type checks agree with `Configure` |
| Services.Service.Handle | orch_serv/service/service.py:596-640 | the result and calls are those of `HandleSpec` on the command looked up, and the post-processor's call carries the reply's additional data (corrected unpacking of a bare message) |
| Services.Service.Lookup | orch_serv/service/service.py:585-594 | a command found is one registered in the table; none is found only when there is no default command |
| Services.ChosenBuilder | orch_serv/service/service.py:519-549 | a builder is chosen exactly when one is passed or set on the class and the class attribute is not some other value; the class attribute wins; neither gives NotImplementedError, a passed builder over another class value gives AttributeError |
| Services.LookupOrder | orch_serv/service/service.py:585-594 | the exact command wins, then the default command; there is none exactly when neither applies |
| Services.ValidateCommands | orch_serv/service/service.py:555-583 | passes exactly when every command's processor and post-processor fit the variant, else TypeError |
| StepperUtils.FormatSignatureParameters | orch_serv/stepper/utils.py:19-63 | the loop's output is the parameters with `/` and `*` markers, joined by `, ` |
| StepperUtils.PiecesAreSpelled | orch_serv/stepper/utils.py:19-63 | `/` comes right after the last of a run of positional-only parameters and `*` before the first keyword-only parameter unless `*args` came earlier |
| StepperUtils.PiecesFromSpelled | orch_serv/stepper/utils.py:19-63 | the loop from any position agrees with that description |
| StepperUtils.PiecesKeepParams | orch_serv/stepper/utils.py:19-63 | every parameter appears once, in order |
| StepperUtils.AtMostOneStar | orch_serv/stepper/utils.py:19-63 | `*` is emitted at most once |
| StepperUtils.ReturnedValue | orch_serv/stepper/utils.py:78-82 | a tuple annotation is split into its members; any other annotation is kept whole |
| StepperUtils.FirstNotNone | orch_serv/stepper/utils.py:139-144 | the position of the first union member that is not `NoneType` |
| StepperUtils.OptionalCheckedAsItsType | orch_serv/stepper/utils.py:139-144 | an Optional previous return is checked as its first member other than `NoneType` |
| StepperUtils.IsExistKeywordVariable | orch_serv/stepper/utils.py:112-121 | true exactly when the callable takes `**kwargs` |
| StepperUtils.ValidateDataStepIff | orch_serv/stepper/utils.py:94-109 | ExtraAttributeError exactly when a keyword names no parameter and there is no `**kwargs` |
| StepperUtils.IssuesFromEmptyIff | orch_serv/stepper/utils.py:148-182 | no issue exactly when every parameter fits |
| StepperUtils.IssuesFromCount | orch_serv/stepper/utils.py:148-182 | one issue per parameter that does not fit, all collected |
| StepperUtils.ValidateDataConsistency | orch_serv/stepper/utils.py:124-191 | the loop collects `ConsistencyIssues`; DataConsistencyError exactly when there is one; types are compared with `SameAnn`, and an Optional previous return is checked with the corrected reading under "## Findings" |
| StepperUtils.SameAnnReflexive | orch_serv/stepper/utils.py:154 | every annotation equals itself |
| StepperUtils.UnionOrderIgnored | orch_serv/stepper/utils.py:154 | `Union[x, y]` equals `Union[y, x]`, as `typing` compares unions by their member sets |
| StepperUtils.ReorderedUnionAccepted | orch_serv/stepper/utils.py:148-182 | a step returning `Union[x, y]` followed by a step whose only parameter is annotated `Union[y, x]` is consistent |
| StepperUtils.IsOptional | orch_serv/stepper/utils.py:90-91 | an optional annotation is a union with `NoneType` among its members |
| StepperUtils.OptionalForms | orch_serv/stepper/utils.py:90-91 | `Union[x, None]` and `Union[None, x]` are optional; a tuple with `None` and `NoneType` alone are not |
| StepperUtils.ConsistencyFailsIff | orch_serv/stepper/utils.py:148-182 | consistent exactly when each parameter within the returned types has a type equal (as `typing` compares) to the returned type at its position and each later one is a keyword, has a default or is `**kwargs` |
| StepperUtils.NoneFirstOptionalRejected | orch_serv/stepper/utils.py:139-144 | as written, `Union[None, int]` feeding an `int` parameter is a type mismatch; with the corrected reading it is consistent |
| StepperUtils.AsWrittenAgreesWhenNoneLast | orch_serv/stepper/utils.py:139-144 | when `None` is not the first member (as in `Optional[X]`), the code as written and the corrected reading agree |
| Steppers.NewStep | orch_serv/stepper/stepper.py:46-52 | a non-callable raises TypeError; a callable is accepted exactly when `validate_data_step` passes, and is kept with its kwargs |
| Steppers.StepRejectsExtraKeywords | orch_serv/stepper/stepper.py:46-52 | a step is refused, with ExtraAttributeError, exactly when a keyword names no parameter and there is no `**kwargs` |
| Steppers.Execute | orch_serv/stepper/stepper.py:60-63 | a tuple is spread as positional arguments, any other value is the single argument, and the stored kwargs are always passed |
| Steppers.ScanStepsIff | orch_serv/stepper/stepper.py:97-109 | the loop succeeds exactly when every argument is a step and, when validating, each step fits the one before; the steps are kept in order |
| Steppers.BuildStepsIff | orch_serv/stepper/stepper.py:80-109 | a builder exists exactly when there is a first argument, every argument is a step and, when validating, consecutive steps fit; its steps are the arguments |
| Steppers.StepsBuilder.Empty | orch_serv/stepper/stepper.py:80-93 | the step list starts empty |
| Steppers.StepsBuilder.New | orch_serv/stepper/stepper.py:80-113 | the builder exists exactly when `BuildStepsSpec` succeeds (with the corrected Optional reading), with its error otherwise, and holds its steps |
| Steppers.StepsBuilder.GetItem | orch_serv/stepper/stepper.py:121-122 | indexing succeeds exactly for `-len <= index < len` and gives the step at that position; otherwise IndexError |
| Steppers.NegativeIndexAgrees | orch_serv/stepper/stepper.py:121-122 | index `i - len` gives the same step as `i` |
| Steppers.StepsBuilder.Iter | orch_serv/stepper/stepper.py:115-116 | a fresh iterator over the steps, at position 0 |
| Steppers.StepsIterator.constructor | orch_serv/stepper/stepper.py:126-130 | the iterator holds the builder's steps at position 0 |
| Steppers.StepsIterator.Next | orch_serv/stepper/stepper.py:132-138 | yields the step at the position and advances, or stops at the end without moving |
| Steppers.Drain | orch_serv/stepper/stepper.py:125-138 | iterating to the end yields every remaining step exactly once, in order |
| Steppers.Stepper.Init | orch_serv/stepper/stepper.py:169-183 | a new stepper has its class attributes and no steps of its own |
| Steppers.ChosenSteps | orch_serv/stepper/stepper.py:150-183 | steps are chosen exactly when the class has a steps builder or has none and one is passed; the class value wins; neither gives NotImplementedError, any other class value TypeError |
| Steppers.Stepper.New | orch_serv/stepper/stepper.py:150-183 | the stepper exists exactly when a steps builder is chosen (else NotImplementedError or TypeError); the class-level flag wins over the argument |
| Steppers.Stepper.StepByStep | orch_serv/stepper/stepper.py:185-243 | the result and the calls made are those of `RunSpec` |
| Steppers.RunTrace | orch_serv/stepper/stepper.py:185-237 | calls follow the steps in order; the first gets the spread arguments; each non-empty result becomes the next input and an empty one is skipped only when allowed; success means every step ran and the last returned something it may, and the result is the last step's result |
| Steppers.RunFailure | orch_serv/stepper/stepper.py:196-233 | a failure happens at the last call: AttributeError or TypeError becomes ConsistencyStepsException naming the step and the last step that returned data; other errors propagate; an empty result without `is_execute_if_empty` raises NoDataForExecutionStepException |
| BlockScenarios.LinkScenario | tests/test_block.py:25-33 | linking an async block to a sync block is refused; two sync blocks list as `first block -> second block -> end` |
| BlockScenarios.ListTwo | tests/test_block.py:31-33 | the two-block listing |
| BlockScenarios.HandleTwice | tests/test_block.py:34-37 | a message without source, then one resuming after the first block, run as `HandleSpec` says |
| BlockScenarios.NoHookRounds | tests/test_block.py:25-37 | without hooks the tags are `[1]` then `[2]` |
| BlockScenarios.PassingHookRounds | tests/test_block.py:39-52 | with passing hooks the tags are `[-1, 1, -1]` then `[-1, 2, -1]` |
| BlockScenarios.StoppingHookRounds | tests/test_block.py:54-66 | with pre-hooks returning nothing only the hook runs: `[-2]` each time |
| BlockScenarios.Round | tests/test_block.py:25-66 | one round of the test through the block objects |
| BlockScenarios.SyncBlockScenario | tests/test_block.py:25-66 | the whole test yields `[1, 2, -1, 1, -1, -1, 2, -1, -2, -2]` |
| FlowScenarios.TestFlowBuilds | tests/settings/settings_test_flow.py:15-34 | `TestFlow` builds and validates to its two-block chain |
| FlowScenarios.TestFlowRounds | tests/test_flow.py:53-58 | `[-3, 1, -1]`, then `[-1, 2, -3]` on resume |
| FlowScenarios.BuildTestFlow | tests/test_flow.py:53 | `TestFlow()` through the builder and flow objects |
| FlowScenarios.Round | tests/test_flow.py:54-57 | `to_go_with_the_flow` on one message gives the tags of `HandleSpec` |
| FlowScenarios.TestFlowScenario | tests/test_flow.py:48-58 | the whole test yields `[-3, 1, -1, -1, 2, -3]` |
| FlowScenarios.DuplicateBlocksRejected | tests/settings/settings_test_flow.py:125-132 | the same block twice without suffixing raises NotUniqueBlockInFlowError |
| FlowScenarios.DuplicateBlocksSuffixed | tests/settings/settings_test_flow.py:135-142 | with suffixing the blocks are `first block_0` and `first block_1` |
| FlowScenarios.WrongBlockClassRejected | tests/settings/settings_test_flow.py:164-175 | an async block in a sync flow, and a sync block in an async flow, raise WorkTypeMismatchException |
| FlowScenarios.DuplicateScenario | tests/settings/settings_test_flow.py:135-142 | `get_steps()` is `first block_0 -> first block_1 -> end` |
| FlowScenarios.BuildDuplicates | tests/settings/settings_test_flow.py:135-142 | the build through the objects |
| FlowScenarios.InstanceFlow | orch_serv/orchestrator/flow/base_flow.py:30-65 | a flow over two block instances made beforehand |
| FlowScenarios.FirstOfTwo | orch_serv/orchestrator/flow/base_flow.py:113-124 | the first build names the shared instances with their step numbers |
| FlowScenarios.SecondOfTwo | orch_serv/orchestrator/flow/base_flow.py:113-124 | a second build reuses the same instances and suffixes their names again |
| FlowScenarios.RebuildScenario | orch_serv/orchestrator/flow/base_flow.py:113-124 | two flows from one builder share the instances: `first block_0 -> first block_1 -> end`, then `first block_0_0 -> first block_1_1 -> end` |
| FlowScenarios.FirstRound | orch_serv/orchestrator/flow/base_flow.py:255-260 | the first build and its `get_steps()` |
| FlowScenarios.SecondRound | orch_serv/orchestrator/flow/base_flow.py:255-260 | the second build and its `get_steps()` |
| FlowScenarios.FirstRebuildNames | orch_serv/orchestrator/flow/base_flow.py:113-124 | building over the two unlinked instances names them as the class build does |
| FlowScenarios.RebuildNames | orch_serv/orchestrator/flow/base_flow.py:113-124 | the second build suffixes `first block_0`/`first block_1` to `first block_0_0`/`first block_1_1` |
| FlowScenarios.TwoSteps | orch_serv/orchestrator/flow/base_flow.py:255-260 | `get_steps()` of a two-block flow |
| StepperScenarios.FlowStepsBuild | tests/settings/settings_test_stepper.py:31-66 | the steps of `MyFirstFlow` and `MySecondFlow` are accepted |
| StepperScenarios.ThirdStepsBuild | tests/settings/settings_test_stepper.py:69-79 | the steps of `MyThirdFlow` are accepted |
| StepperScenarios.MyFirstFlowRun | tests/test_stepper.py:78-89 | the third step returns nothing, so NoDataForExecutionStepException names it after three calls; `LIST_ARGS` is `[1, 1, 1, 2, 1]` |
| StepperScenarios.MySecondFlowRun | tests/test_stepper.py:92-95 | the empty result is skipped and the run returns `[3]` after four calls; `LIST_ARGS` is `[1, 1, 1, 2, 1, 2, 2]` |
| StepperScenarios.MyThirdFlowRun | tests/test_stepper.py:90-91 | `correct_step_1` called with a list raises ConsistencyStepsException naming it and `correct_step_2` |
| StepperScenarios.StepperNeedsBuilder | tests/test_stepper.py:80-83 | a step instead of a builder raises TypeError; no steps at all raises NotImplementedError |
| StepperScenarios.BuilderChecks | tests/test_stepper.py:35-43 | a non-callable raises TypeError; a `str` parameter fed an `int` raises DataConsistencyError |
| StepperScenarios.StepKeywordChecks | tests/test_stepper.py:48-51 | an unknown keyword raises ExtraAttributeError unless the function has `**kwargs` |
| StepperScenarios.MySecondFlowScenario | tests/test_stepper.py:92-95 | the second flow through the builder, stepper and iterator objects returns `[3]` |

## Left out

- Logging (`logger.*`), `warnings.warn` in `validate_data_consistency`, and the text of exception messages: output side effects with no stated behaviour. Errors are datatype constructors that carry only the names the source's messages are about.
- `parse_signature` and `get_attributes_obj` in `stepper/utils.py`: they only build message text for ConsistencyStepsException. The model's exception carries the step and previous-step names, not the signature texts.
- Python reflection:
  - `inspect.ismodule`/`getmembers`, `issubclass`/`isinstance` and `inspect.signature` are replaced by explicit tags. These are a Sync/Async kind, class-or-instance entries, a `baseOk` flag per module class, and parameter records (name, kind, annotation, has-default).
  - A module is its classes in `getmembers` order.
- Coroutine scheduling: async variants are the sequential algorithm with `await` erased where what is awaited is a coroutine. Concurrent first-use memoisation races are not modelled.
- Orchestrators.Orchestrator.Handle: in `AsyncOrchestrator` the entries are `SyncBlock`s and `SyncFlow`s, so the model takes the `await` on `process` or `to_go_with_the_flow` to always raise a caught TypeError. A `SyncBlock` subclass whose `process` is an `async def` returns an awaitable coroutine, and then the message is returned only when forced or when `process` raised. The model has no such block.
- `deepcopy` is a value copy, and the message is a record of `source`, `flow`, `target`, `command` and a body. Pydantic validation of messages (orch_serv/msg/message.py) is not part of this model.
- Unpacking the result of `process` in `Service.handle`: a result is nothing, a message, a pair (message or nothing, data), or an exception. A reply that is a tuple of another length, or another iterable, is not modelled.
- Services.HandleSpec, Services.HandleResult, Services.PostProcessCalledIff, Services.Service.Handle use the corrected unpacking given under "## Findings": a bare message reply goes to `post_process` as the message with None as its data. The code as written iterates the message's pydantic fields instead. A message with two fields, such as `BaseOrchServMsg` with `body` and `header`, makes `post_process` receive `('body', body)` and `('header', header)`. A message with any other number of fields raises ValueError, which `except Exception` catches, so `post_process` is not called and the message is returned, or the error re-raised when exceptions are not caught. `Services.HandleSpecAsWritten` and `Services.MessageReplyMisunpacked` state both cases. The same applies to `AsyncService.handle` (orch_serv/service/service.py:664-672).
- The swap scope uses `setattr`/`delattr` on the service. It is a string-keyed map, and collisions with real attributes are not modelled.
- The bodies of user code (`process`, hooks, `post_process`, step functions) are abstract. A hook either returns the message, returns nothing or raises; a coroutine object stored as a hook raises TypeError when called. A step function is the parameter `run`, and binding of arguments to parameters is part of `run`.
- `Steppers.Stepper.StepByStep`: `Stepper.steps` is taken to be a non-empty builder. The falsiness of an empty builder is not modelled, because a builder made by `StepsBuilder` always has a first step.
- `StepsBuilder.__len__` is the length of `steps` and has no member of its own.
- Flows.FlowBuilder.BuildFlow, Flows.Flow.Create and Orchestrators.Orchestrator.New, and with them Flows.FlowBuilder.InitBlock, Flows.Flow.CreateFrom, Orchestrators.CreateFlow, Orchestrators.CreateAmong, Orchestrators.CreateKeeping and Orchestrators.CreateOwn: the heap model requires that block objects are not shared. Each block instance is held by at most one step of one flow builder. Each one is either unlinked or already points at the next step's block, so the last step's block has no outside link. Python accepts three configurations this excludes, and the model covers them only on values, through `Flows.Relinked`:
  - The same instance in two steps. It is re-initialised twice (hooks set again through the setters, name suffixed twice) and its link is overwritten. `[b, b]` links `b` to itself, and `_validate_data` raises NotUniqueBlockInFlowError. `[a, b, a, c]` leaves the chain `a -> c`, which validates without `b` when `a` and `c` have different names.
  - A last-step instance that is already linked elsewhere. Its old link is kept, so the chain, its validation and `handle` go on into the outside blocks.
  - An instance shared by two flow classes. Building the second flow re-links and renames the shared block, so a flow memoised earlier sees its chain change. The chain can become a cycle, and `handle` then recurses until RecursionError.
- The abstract bases (base_block.py, block.py), exc.py, examples, docs and packaging are not part of this model.
- StepperUtils.ValidateDataConsistency, StepperUtils.ConsistencyIssues, Steppers.ScanSteps, Steppers.BuildStepsSpec and Steppers.StepsBuilder.New use the corrected reading of orch_serv/stepper/utils.py:139-144 given under "## Findings". An Optional previous return is checked as its first member other than `NoneType`. The code as written checks the first member. So for a step returning `Union[None, int]` followed by a step taking `val: int`, the code raises DataConsistencyError and the model accepts the steps. When `None` is not the first member, as in `Optional[X]`, the two agree (`StepperUtils.AsWrittenAgreesWhenNoneLast`).

Where the test-suite and the code disagree, the model follows the code:

- `StepsBuilder()` with no steps: the code raises IndexError on `steps[0]` (orch_serv/stepper/stepper.py:95). The test expects EmptyStepper.
- `set_service_instance` ignores a value that is not a `Service` (orch_serv/service/service.py:62-64). The test expects TypeError.
- `AsyncOrchestrator.handle` has no default fallback and no message-type check; a non-message fails reading its fields (AttributeError). The tests expect both.
- All three orchestrators validate their registries against `SyncFlow`/`SyncBlock` (orch_serv/orchestrator/orchestrator/orchestrator.py:107-141), `AsyncOrchestrator` included.
- `ServiceCommand` is a pydantic model whose `post_processor` may not be `None` (orch_serv/service/service.py:227-235). So `build` fails with a validation error for a block that has no post-processor when there is no default either.

## Findings

| source | as written | input that shows it | evidently intended | confidence | as-written member | corrected member |
|---|---|---|---|---|---|---|
| orch_serv/stepper/utils.py:139-144 | for an Optional previous return the loop takes the first union member whose value `is not None`; every member, `NoneType` included, is not `None`, so it always takes the first member | a step returning `Union[None, int]` followed by a step taking `val: int`: the check compares `int` with `NoneType` and raises DataConsistencyError | the first member that is not `NoneType` is the type checked | medium (not executed) | StepperUtils.NoneFirstOptionalRejected | StepperUtils.OptionalCheckedAsItsType |
| orch_serv/service/service.py:612-615 | `resp_msg, additional_data = resp_process` on a bare message reply iterates the pydantic model, which yields its `(name, value)` field pairs, so the `except TypeError` fallback never runs | a `process` that returns a message with three fields, with a post-processor: ValueError is caught as a processing error, `post_process` is not called, and with exceptions not caught the error is re-raised; a two-field message sends its field pairs to `post_process` | a bare message goes to `post_process` with None as its data, as the docstring of `process` (orch_serv/service/service.py:148-155) and the fallback say | high (not executed) | Services.MessageReplyMisunpacked | Services.PostProcessCalledIff |

`Optional[X]` lists `X` first, so the usual spelling is not affected (`StepperUtils.AsWrittenAgreesWhenNoneLast`). The model uses the corrected `StepperUtils.DataToCheck` throughout, and `StepperUtils.DataToCheckAsWritten` keeps the code as written.
