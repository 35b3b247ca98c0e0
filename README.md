# Planner-component registry (`base/ucg_plan.c`)

This project models the planner-component registry of the collective-operation
layer and proves properties of that model. The registry has five parts:

- **Discovery (`ucg_plan_query`).** It walks the registered planner components
  in order. It asks each one for its plan descriptors and grows one result
  array with `ucs_realloc`. It loads the component's configuration bundle
  under the `"UCX_"` prefix, then appends the descriptors.
- **Release (`ucg_plan_release_list`).** It frees each descriptor's bundle
  (options, prefix copy, bundle), then the array.
- **Single-component description (`ucg_plan_single`).**
- **Selection (`ucg_plan_select_component`).** It always picks the first
  descriptor.
- **The NULL-safe free helper (`ucg_plan_free`).**

The heap is an explicit value, `Ucs.Mem`. It maps every allocation id ever
handed out to a cell holding the block's contents and whether the block is
still live, and it keeps a log of faults: invalid frees and accesses to freed
blocks. `Ucs.Heap` is the process heap as a class whose methods (`Malloc`,
`Free`, `Access`, `Store`) update that value in place.

Every foreign call is an input that decides its outcome:

- a component's `query` callback (`QueryReply`);
- the behaviour of `ucs_realloc` (`ReallocChoice`: fail, grow in place, or move);
- the bundle `ucs_calloc`, `ucs_config_parser_fill_opts` and `ucs_strdup` (`ConfigReply`);
- `ucs_malloc` in `ucg_plan_single` (`mallocOk`).

The project has three modules after `Ucs`:

- **`PlanModel`** holds the entities: `Component` (a class, since discovery
  writes its `planConfig` field), `PlanDesc`, `Block` and the replies. It also
  holds the pure status and counting functions, with their lemmas.
- **`PlanSpec`** gives one function per C operation, saying what it does to the
  heap (`ConfigReadRun`, `ReallocRun`, `StepRun`, `QueryRun`,
  `ReleaseListRun`, `SingleRun`, …). Lemmas state what each one guarantees.
- **`UcgPlan`** holds the imperative code: one method per C function that
  changes state, each proved to change the heap exactly as its `PlanSpec`
  function says. The exception is `ucg_plan_select_component`. It only reads
  its inputs and writes one out-parameter, so it is the pure function
  `PlanModel.SelectComponent`, with no method and no `PlanSpec` function.

The specification of the system treats a component whose query fails as
skipped, not as fatal. The code (`base/ucg_plan.c:106-111`) aborts the whole
discovery and returns that component's status. The model follows the code.

## Model

| member | source | states |
|---|---|---|
| UcgPlan.PlanFree | base/ucg_plan.c:30-36 | frees the block only when the pointer is not NULL, and always hands back NULL for the caller's pointer, so a second call changes nothing |
| Ucs.DoubleRelease | base/ucg_plan.c:30-36 | freeing a live block once records no fault; freeing it again records exactly one invalid free |
| UcgPlan.ConfigRead | base/ucg_plan.c:38-73 | allocates the bundle, fills the options, stores the table and a copy of the prefix; any failure frees the bundle, and the heap and status are those of PlanSpec.ConfigReadRun |
| PlanModel.ConfigReadStatus | base/ucg_plan.c:46-72 | success exactly when calloc, fill and strdup all succeed; a calloc failure reports no-memory, a fill failure reports the fill status, and a strdup failure reports no-memory |
| PlanSpec.ConfigReadRunSpec | base/ucg_plan.c:38-73 | never faults and never changes an existing block; failure leaves a NULL bundle and neither a bundle nor a prefix copy allocated (the filled options are not modelled); success gives a fresh live bundle holding the table, the size and a fresh live copy of the prefix, and nothing else new |
| UcgPlan.ReadConfig | base/ucg_plan.c:75-92 | loads the component's configuration under "UCX_" and sets its plan_config only on success; status and heap are those of PlanSpec.ReadConfigRun |
| PlanModel.ReadConfigStatus | base/ucg_plan.c:75-92 | success exactly when the load succeeds; every failure is reported as an invalid parameter, never as no-memory |
| PlanSpec.ReadConfigRunSpec | base/ucg_plan.c:75-92 | failure leaves no block behind; success leaves the component's bundle loaded in two fresh blocks, neither a descriptor array, with no fault and no existing block changed |
| PlanSpec.ReallocRunSpec | base/ucg_plan.c:113-119 | realloc either fails and changes nothing, or returns a live array holding the old descriptors: the same block, or a fresh one with the old block freed |
| PlanSpec.CopyLive | base/ucg_plan.c:127 | memcpy appends the component's descriptors after the gathered ones and changes no other block |
| UcgPlan.QueryStep | base/ucg_plan.c:105-130 | one iteration as written (query, realloc, read_config, append, free planners, or the error path) changes the heap as PlanSpec.StepRun says |
| PlanSpec.StepSpec | base/ucg_plan.c:105-140 | one iteration reports StepStatus and changes no earlier block except the gathered array. On failure the array is freed, no new block stays live, and as written it is freed twice when the query failed or realloc had succeeded. On success the grown array holds the old descriptors followed by the component's, and its bundle is loaded |
| PlanModel.StepStatus | base/ucg_plan.c:106-124 | an iteration succeeds exactly when query, realloc and configuration all succeed; a query failure reports the component's own status; a realloc failure reports no-memory; a configuration failure reports invalid-parameter |
| PlanModel.QueryStatus | base/ucg_plan.c:105-134 | discovery succeeds exactly when every component's iteration does; otherwise the status of the first failing component is reported |
| PlanModel.FailAtSnoc | base/ucg_plan.c:105-130 | appending a component moves the first failure only when all earlier components succeeded |
| PlanModel.FlattenAt | base/ucg_plan.c:103-133 | descriptor k of component j sits at position (descriptors of the components before j) + k of the result |
| PlanModel.CountPrefix | base/ucg_plan.c:103-128 | the running count over a prefix of the components never exceeds the final count |
| UcgPlan.Query | base/ucg_plan.c:94-141 | discovery as written: the status, heap and out-parameters are those of PlanSpec.QueryRun, written only on success. Every component before the failing one has its plan_config set to its bundle, and the others keep theirs |
| PlanSpec.QueryRunSpec | base/ucg_plan.c:94-141 | discovery reports QueryStatus. Success gives a fresh array holding all components' descriptors in order, with count the sum of their counts; it is NULL with count 0 for no components. Success also leaves every component's bundle loaded, records no fault and changes no existing block. Failure frees the gathered array, leaves no new array live, and records one invalid free exactly when QueryDoubleFrees holds (as written) or none (corrected) |
| PlanSpec.QueryRunStops | base/ucg_plan.c:106-124 | a failing component ends discovery: the components after it change nothing |
| PlanModel.LaterQueryFailureDoubleFrees | base/ucg_plan.c:126-139 | when a component after the first reports a query failure, the error path frees the gathered array twice, and discovery returns that component's status |
| PlanModel.DoubleFreeWitness | base/ucg_plan.c:126-139 | two components, the second one's query failing, make the error path free the gathered array twice |
| UcgPlan.QueryFixed | base/ucg_plan.c:94-141 | corrected discovery: the same results as Query, but every failure path frees the gathered array exactly once (PlanSpec.QueryRunSpec with the fixed flag) |
| PlanSpec.FixedCleanupResized | base/ucg_plan.c:136-140 | the corrected error path after a successful realloc frees the grown array and the query's array once each, without a fault |
| UcgPlan.ReleaseList | base/ucg_plan.c:143-157 | releases, for each of the first count descriptors, the bundle its component's plan_config leads to, then frees the array; a NULL array with count 0 leaves the heap alone |
| PlanSpec.ReleaseBundleSpec | base/ucg_plan.c:148-154 | releasing a live bundle frees it and its prefix copy without a fault and changes no other block; releasing a freed bundle records a fault |
| PlanSpec.ReleaseLoopSpec | base/ucg_plan.c:146-155 | after the first n descriptors, the first n bundles are freed without a fault if they are distinct, and a fault has been recorded otherwise |
| PlanSpec.ReleaseListSpec | base/ucg_plan.c:143-157 | release records no fault exactly when no two descriptors lead to the same bundle; then the array, every bundle and every prefix copy are freed, and no other block changes |
| PlanSpec.DescBundlesSpec | base/ucg_plan.c:148-150 | with one loaded bundle per component, two descriptors lead to the same bundle exactly when they name the same component |
| UcgPlan.ConfigPtrsAreBundles | base/ucg_plan.c:88-150 | after discovery, the bundles reached through each descriptor's component are the ones discovery loaded for those components |
| PlanSpec.QueryReleaseReady | base/ucg_plan.c:94-157 | after a successful discovery, its result can be handed to release, and the bundles repeat exactly when a component is named by two descriptors |
| PlanModel.OneDescriptorEach | base/ucg_plan.c:126-154 | when each component describes only itself, no component is named twice in the discovery result exactly when each component contributed at most one descriptor |
| PlanSpec.ReleaseAfterQuery | base/ucg_plan.c:94-157 | releasing the result of a successful discovery records no fault exactly when no component contributed more than one descriptor |
| UcgPlan.PlanSingle | base/ucg_plan.c:159-176 | allocates one descriptor for the component and writes the out-parameters only on success; heap and result are those of PlanSpec.SingleRun |
| PlanSpec.SingleRunSpec | base/ucg_plan.c:159-176 | allocation failure reports no-memory and changes nothing; success gives a fresh live array of exactly one descriptor, naming the component, with count 1, and no other block changed |
| PlanModel.PlanName | base/ucg_plan.c:169 | the copied name is a prefix of the component's name shorter than the buffer, and equals the whole name exactly when the name fits |
| PlanModel.SelectComponent | base/ucg_plan.c:178-192 | succeeds exactly when no name is requested or it equals the first descriptor's name; then the first descriptor's component is chosen, and otherwise the error is invalid-parameter |
| PlanModel.SelectFirstOnly | base/ucg_plan.c:185-190 | selection depends only on the first descriptor |
| PlanModel.SelectSingleByName | base/ucg_plan.c:163-190 | asking for a component by name from the descriptor ucg_plan_single made succeeds exactly when the name fits in the name buffer |

## Left out

- PlanSpec.ConfigReadRunSpec: "failure leaves no new live block" covers only the bundle and the prefix copy. The options `ucs_config_parser_fill_opts` fills (line 52) are not modelled as heap blocks. So the model does not show that the strdup failure path (lines 59-62, then 68-69) frees the bundle without calling `ucs_config_parser_release_opts`, which leaks whatever fill allocated.
- Logging (`ucs_debug`, `ucs_error`) has no effect on the state and is not modelled.
- The internals of `ucs_config_parser_fill_opts`, `ucs_config_parser_release_opts` and the environment lookup are not modelled. Fill is an input that decides its status, and release of the options is a read of the bundle.
- Each component's `query` implementation is an input, not code. On failure it is taken not to write `planners`, which the previous iteration set to NULL at line 129.
- `ucs_snprintf_zero` is modelled only as bounding the name to the buffer. `UCG_PLAN_COMPONENT_NAME_MAX` is defined in `ucg_plan.h`, which is not part of this model, so it is the parameter `nameMax`.
- `strcmp` is string equality; embedded NUL characters are not modelled.
- The `group_params` and `coll_params` arguments of `ucg_plan_select_component` are left out; its body never reads them.
- `ucs_container_of` address arithmetic is replaced by an explicit reference: a component's `planConfig` holds the bundle pointer itself.
- The registered-component list is a sequence of `Component` objects passed to discovery, not a global intrusive list.
- `UcgPlan.Query`: `nums` and `num_plans` are unbounded naturals. The 32-bit `unsigned` wrap-around of `nums + num_plans` is not modelled.
- `ucs_realloc` of size zero is not treated specially; whether it fails is part of the input `ReallocChoice`.
- A failed discovery does not release the bundles of the components before the failing one. The source does not release them either. The model keeps them loaded, and `PlanSpec.QueryRunSpec` states this.
- `UcgPlan.ReleaseList` requires every released descriptor's component to have a loaded configuration pointer. On a NULL `plan_config` the source computes a bogus bundle address; that undefined behaviour is not modelled.
- After release, each component's `planConfig` still points to the freed bundle, as in the source. Nothing in this core reads it afterwards.
- The headers `base/ucg_group.h` and `builtin/plan/builtin_algo_decision.h` declare only layouts, constants and prototypes: the plan cache, operation reuse, endpoint map and algorithm decision. None of their bodies is part of this model.

## Findings

| source | as written | input that shows it | evidently intended | confidence | as-written member | corrected member |
|---|---|---|---|---|---|---|
| base/ucg_plan.c:126,137-139 | after the first iteration, `resources = tmp` makes `tmp` alias the gathered array. A later query failure, or a read_config failure after a successful realloc, reaches `err`, which frees `tmp` and then `resources`. That is the same block twice, or a block realloc already freed | two components: the first succeeds, the second one's query fails (`PlanModel.DoubleFreeWitness`) | the error path frees the gathered array exactly once | not executed | UcgPlan.Query (PlanSpec.QueryRunSpec without the fixed flag: one invalid free exactly when PlanModel.QueryDoubleFrees holds) | UcgPlan.QueryFixed (`resources = tmp` right after realloc succeeds; the error path frees `planners` and `resources` once each; PlanSpec.QueryRunSpec with the fixed flag: no fault) |
