# Bevy ECS macros and CPU-side render batching, modelled in Dafny

This project models two pieces of Bevy.

**The ECS procedural macros** in `crates/bevy_ecs/macros/src/lib.rs`, over abstract tokens and fields:

- `AllTuples::parse` and `all_tuples!`. The macro parses `m, start, end, A, B, ..` and emits one `m!` invocation per index in `start..=end`. Each invocation lists the suffixed identifier tuples built so far.
- `derive_bundle_impl`. The derive fills the `component_ids`, `get_components` and `from_components` statement lists in one pass over the fields.
  - The model also gives what the generated impl does at run time, as functions over a tree of bundle types.
  - A `#[bundle]` field delegates to its own impl.
- `get_idents` and `impl_param_set`.
  - The generator emits `ParamSet` impls for 1 to 8 parameters, with accessors `p{i}`.
  - The generated `init` checks each parameter alone and against the system's prior access. It then merges each parameter's standalone access into a `SystemMeta` object.
  - The generated `new_archetype` calls each parameter's `new_archetype` in order.
- `derive_system_param`. The derive reads the `#[system_param(ignore)]` flags, partitions the fields into fetched and ignored ones, and records `field_indices`. The model also gives what the generated `get_param` builds from the `Fetch` state tuple.

**The CPU-side instance batcher** in `crates/bevy_render/src/batching/no_gpu_preprocessing.rs`:

- `batch_and_prepare_binned_render_phase`, as imperative code over a `BinnedRenderPhase` class and a `BatchedInstanceBuffer` class.
  - It runs one view after another, sharing one buffer.
  - Batchable bins are handled first: their entities' instance data is pushed, and consecutive instances are coalesced into batches.
  - Unbatchable bins come next: each pushed instance is added to its bin's buffer indices.
- The per-item closure of `batch_and_prepare_sorted_render_phase`.

The module `BatchSpec` states what one bin's loop computes, as functions on values: `Feed`, the pushes, and `CoalesceAll`, the batches. The methods are proved to compute exactly those functions. The lemmas prove what the batches are:

- they draw exactly the pushed instances, in push order;
- no batch is empty;
- neighbouring batches can never be merged;
- each batch is represented by the entity that opened it.

Modules: `Wrappers` (Option/Result), `Naming` (decimal index suffixes), `Syntax` (abstract derive input), `AllTuplesMacro`, `BundleDerive`, `ParamSet`, `SystemParamDerive`, `BatchSpec` and `NoGpuBatching`.

Panics and compile errors of the source become `Err` results or `ok == false`.

Collaborators whose code is not part of this model are parameters:

- `GpuArrayBuffer::push` placement is a function from the push count to a `BufferIndex`, with no assumption that indices count up by one.
- `GetFullBatchData::get_binned_batch_data` and `GetBatchData::get_batch_data` are lookup functions.
- `Components::init_component` is a function from type to id.
- A parameter's own `init` is an abstract conflict check `conflicts(prior, access)`.
- The `Bundle` trait resolution of nested fields is the `nested` list of a `BundleType`.

## Model

| member | source | states |
|---|---|---|
| Naming.Decimal | crates/bevy_ecs/macros/src/lib.rs:56 | an index renders as at least one ASCII digit, with no leading zero |
| Naming.DecimalRoundTrip | crates/bevy_ecs/macros/src/lib.rs:56 | reading the decimal rendering of `n` back gives `n` |
| Naming.DecimalInjective | crates/bevy_ecs/macros/src/lib.rs:56 | different indices render differently |
| Naming.SuffixedInjective | crates/bevy_ecs/macros/src/lib.rs:56 | `base ++ decimal(i)` equals `base ++ decimal(j)` iff `i == j`, so generated names never clash |
| AllTuplesMacro.Parse | crates/bevy_ecs/macros/src/lib.rs:26-46 | the cursor-based parser returns exactly the reference grammar `ParseArgs`. That includes each error: missing ident, comma or literal; a literal above `usize::MAX`; trailing tokens |
| AllTuplesMacro.ParseTailRender | crates/bevy_ecs/macros/src/lib.rs:35-37 | the `, X` loop reads back every identifier list it is given, in order |
| AllTuplesMacro.ParseTailSound | crates/bevy_ecs/macros/src/lib.rs:35-37 | whatever the `, X` loop accepts is exactly the rendering of the identifiers it returns |
| AllTuplesMacro.ParseRender | crates/bevy_ecs/macros/src/lib.rs:26-46 | every argument list with both bounds within `usize` and at least one identifier parses back from its tokens, identifiers in input order |
| AllTuplesMacro.ParseSound | crates/bevy_ecs/macros/src/lib.rs:26-46 | every accepted input has at least one identifier and both bounds within `usize`, and it is the rendering of the parsed result |
| AllTuplesMacro.TupleShape | crates/bevy_ecs/macros/src/lib.rs:53-66 | the tuple for suffix `i` has one name `ident ++ decimal(i)` per identifier. It is bare iff there is one identifier. Tuples for different suffixes differ |
| AllTuplesMacro.Expand | crates/bevy_ecs/macros/src/lib.rs:48-81 | the expansion is an error iff `start > end`. Otherwise there are `end - start + 1` invocations; invocation `k` lists exactly the tuples for `start..start+k`, and the first lists none. Each invocation extends the previous by one tuple, and the tuple for `end` is never emitted |
| AllTuplesMacro.AllTuplesMacro | crates/bevy_ecs/macros/src/lib.rs:48-52 | the macro fails with the parser's error when parsing fails, and succeeds iff parsing succeeds with `start <= end`. It then emits `end - start + 1` invocations of the parsed macro name. Invocation `k` lists exactly the tuples for the parsed `start..start+k`, the first lists none, each extends the previous by one tuple, and the tuple for `end` is never emitted |
| BundleDerive.IsBundleField | crates/bevy_ecs/macros/src/lib.rs:124-128 | a field is a nested bundle iff one of its attributes has the single-segment path `bundle` |
| BundleDerive.DeriveBundle | crates/bevy_ecs/macros/src/lib.rs:110-169 | the derive is rejected, with the source's message, iff the input is not a struct or has no fields. Otherwise the three step lists are aligned, step `k` of each is about field `k`, and each step kind follows the `#[bundle]` flag |
| BundleDerive.DerivedFieldAddressing | crates/bevy_ecs/macros/src/lib.rs:123-140 | a derived step addresses its field by name, or by position in a tuple struct, and is nested iff the field carries `#[bundle]` |
| BundleDerive.FromComponentsOfGetComponents | crates/bevy_ecs/macros/src/lib.rs:172-198 | `from_components` fed the pointers `get_components` emits rebuilds the original value, nested bundles included, and leaves the rest of the stream untouched |
| BundleDerive.FromGetsFrom | crates/bevy_ecs/macros/src/lib.rs:185-197 | from step `k` on, reading back the emitted pointers completes the value whose first `k` fields are accumulated |
| BundleDerive.FromGetsFromRead | crates/bevy_ecs/macros/src/lib.rs:161-165 | the same from a component step on |
| BundleDerive.FromGetsFromDescend | crates/bevy_ecs/macros/src/lib.rs:148-156 | the same from a nested step on |
| BundleDerive.FromGetsFromLeaf | crates/bevy_ecs/macros/src/lib.rs:161-165 | a component step reads back the pointer `OwningPtr::make` emitted for the same field, with the field's type |
| BundleDerive.FromGetsFromNested | crates/bevy_ecs/macros/src/lib.rs:148-156 | a nested step hands the rest of the stream to the nested impl and continues after what it consumed |
| BundleDerive.FromGetsFromDone | crates/bevy_ecs/macros/src/lib.rs:189-191 | after the last step the accumulated fields are exactly the value's fields |
| BundleDerive.AccumulateNext | crates/bevy_ecs/macros/src/lib.rs:189-191 | initialising step `k`'s field keeps the struct literal a restriction of the value |
| BundleDerive.ConformsStep | crates/bevy_ecs/macros/src/lib.rs:173 | in a well-typed value, step `k` of each list is about one present field of the declared type |
| BundleDerive.IdsMatchGets | crates/bevy_ecs/macros/src/lib.rs:173-182 | from step `k` on, `component_ids` and `get_components` have equal length, and each id is the id of the corresponding pointer's type |
| BundleDerive.ComponentIdsMatchValues | crates/bevy_ecs/macros/src/lib.rs:173-197 | the `k`-th emitted pointer is a value of the component whose id `component_ids` lists `k`-th |
| ParamSet.GetIdents | crates/bevy_ecs/macros/src/lib.rs:203-207 | `get_idents` yields `count` identifiers |
| ParamSet.GetIdentsDistinct | crates/bevy_ecs/macros/src/lib.rs:203-214 | the identifiers `get_idents` yields are pairwise distinct |
| ParamSet.ImplParamSet | crates/bevy_ecs/macros/src/lib.rs:210-313 | there is one impl per parameter count `1..=8`. The impl for `c` has parameters `P0..`, fetches `PF0..` and metas `m0..`, and accessors `p0..p{c-1}`. Accessor `j` reads slot `j` as `Pj` |
| ParamSet.AccessorSelects | crates/bevy_ecs/macros/src/lib.rs:217-230 | calling `p{j}` on a ParamSet of `c` parameters fetches parameter `j` iff `j < c`; no other `p`-name resolves |
| ParamSet.AccessorSearch | crates/bevy_ecs/macros/src/lib.rs:217-230 | the same, for the accessors from index `from` on |
| ParamSet.SystemMeta.Clone | crates/bevy_ecs/macros/src/lib.rs:257 | a clone holds the same access sets |
| ParamSet.SystemMeta.Clear | crates/bevy_ecs/macros/src/lib.rs:258-259 | clearing empties both access sets |
| ParamSet.SystemMeta.Extend | crates/bevy_ecs/macros/src/lib.rs:263-270 | extending adds the other meta's access to both sets |
| ParamSet.ParamInit | crates/bevy_ecs/macros/src/lib.rs:260-261 | a parameter's `init` fails iff its access conflicts with the meta's. Otherwise its access is added to the meta, and on failure the meta is unchanged |
| ParamSet.UnionComponentAccessMembers | crates/bevy_ecs/macros/src/lib.rs:263-270 | the merged access holds exactly what some parameter declares |
| ParamSet.ParamSetInit | crates/bevy_ecs/macros/src/lib.rs:254-272 | `init` succeeds iff each parameter passes alone and against the prior access. It then returns one state per parameter, and the system's access becomes the prior access ∪ each parameter's. On failure the system meta is unchanged |
| ParamSet.ApplyAccess | crates/bevy_ecs/macros/src/lib.rs:263-270 | the merge loop adds every parameter's standalone access to the system's component and archetype access |
| ParamSet.ParamSetNewArchetype | crates/bevy_ecs/macros/src/lib.rs:274-279 | `new_archetype` leaves the component access alone. The archetype access gains exactly what some parameter records for the archetype |
| ParamSet.SiblingsNotChecked | crates/bevy_ecs/macros/src/lib.rs:254-262 | two parameters that each write the same component are accepted together, because siblings are never checked against each other |
| SystemParamDerive.IgnoreFlags | crates/bevy_ecs/macros/src/lib.rs:332-358 | flag collection succeeds iff each field's first `system_param` attribute, if it has one, has empty parentheses or exactly `ignore`. It then gives one flag per field, in order, true exactly for `ignore` |
| SystemParamDerive.PositionsStep | crates/bevy_ecs/macros/src/lib.rs:364-375 | one more field extends the positions with that field's own position, when its flag matches |
| SystemParamDerive.PositionsSound | crates/bevy_ecs/macros/src/lib.rs:364-375 | every recorded position is in range and carries the flag |
| SystemParamDerive.PositionsIncreasing | crates/bevy_ecs/macros/src/lib.rs:364-375 | recorded positions strictly increase |
| SystemParamDerive.PositionsComplete | crates/bevy_ecs/macros/src/lib.rs:364-375 | every field carrying the flag is recorded |
| SystemParamDerive.PositionsPartition | crates/bevy_ecs/macros/src/lib.rs:364-375 | each field lands on exactly one side |
| SystemParamDerive.PositionsWhereSpec | crates/bevy_ecs/macros/src/lib.rs:364-375 | the recorded positions are exactly the flagged fields, each once, in increasing order |
| SystemParamDerive.DeriveSystemParam | crates/bevy_ecs/macros/src/lib.rs:324-375 | the derive succeeds iff the struct has named fields and valid flags. `field_indices` are then the fetched fields' positions among ALL fields. Fetched and ignored names and types are listed in field order |
| SystemParamDerive.SplitFields | crates/bevy_ecs/macros/src/lib.rs:359-375 | the partition loop sends each field to the side its flag picks, in order, and panics iff a field has no identifier |
| SystemParamDerive.NoneIgnored | crates/bevy_ecs/macros/src/lib.rs:364-375 | with no field ignored, `field_indices` is `0, 1, 2, ..` |
| SystemParamDerive.FetchedPositionsAligned | crates/bevy_ecs/macros/src/lib.rs:364-375 | `field_indices` is `0, 1, 2, ..` iff no ignored field precedes a fetched one |
| SystemParamDerive.IgnoredLastCountsUp | crates/bevy_ecs/macros/src/lib.rs:364-375 | with every ignored field last, `field_indices` counts up from 0 |
| SystemParamDerive.MisplacedIgnoredBreaksCount | crates/bevy_ecs/macros/src/lib.rs:364-375 | an ignored field before a fetched one makes `field_indices` skip a number |
| SystemParamDerive.LastIndexOutOfRange | crates/bevy_ecs/macros/src/lib.rs:364-375 | an ignored field before a fetched one makes the last `field_indices` entry at least the number of fetched fields, which is the `Fetch` tuple's length |
| SystemParamDerive.AsWrittenBindsWhenIgnoredLast | crates/bevy_ecs/macros/src/lib.rs:435-444 | with every ignored field last, `get_param` binds fetched field `k` to state `k` and defaults the ignored fields |
| SystemParamDerive.AsWrittenRejectsIgnoredFirst | crates/bevy_ecs/macros/src/lib.rs:435-444 | with an ignored field before a fetched one, `get_param` indexes past the state tuple |
| SystemParamDerive.IgnoredFirstCounterexample | crates/bevy_ecs/macros/src/lib.rs:364-375 | `struct S { #[system_param(ignore)] a: A, b: B }` reads `b` from element 1 of a one-element tuple |
| SystemParamDerive.Corrected | crates/bevy_ecs/macros/src/lib.rs:372 | the corrected indices count up from 0, one per fetched field |
| SystemParamDerive.CorrectedBindsFields | crates/bevy_ecs/macros/src/lib.rs:441-444 | with the corrected indices, `get_param` binds fetched field `k` to state `k` whatever the field order |
| SystemParamDerive.CorrectedAgreesWhenIgnoredLast | crates/bevy_ecs/macros/src/lib.rs:364-375 | the correction changes nothing when every ignored field is last |
| BatchSpec.NonEmptyRangesEach | crates/bevy_render/src/batching/no_gpu_preprocessing.rs:119-121 | the recursive non-emptiness predicate holds iff every batch's range is non-empty |
| BatchSpec.ExtendLast | crates/bevy_render/src/batching/no_gpu_preprocessing.rs:119-121 | extending the last batch to `index + 1` keeps it non-empty and makes it also draw the new instance |
| BatchSpec.OpenBatch | crates/bevy_render/src/batching/no_gpu_preprocessing.rs:112-121 | a new batch `index..index+1` draws exactly the new instance |
| BatchSpec.CoalesceStep | crates/bevy_render/src/batching/no_gpu_preprocessing.rs:108-121 | one pushed instance appends exactly itself to what the batches draw and keeps every range non-empty. The last batch then ends at `index + 1` with the instance's offset |
| BatchSpec.CoalesceAllCovers | crates/bevy_render/src/batching/no_gpu_preprocessing.rs:96-121 | a bin's batches draw exactly its pushed instances, in push order, each with its own dynamic offset, and no batch is empty |
| BatchSpec.FlattenLength | crates/bevy_render/src/batching/no_gpu_preprocessing.rs:108-121 | the instances a batch set draws are as many as its ranges' total length |
| BatchSpec.CoalesceAllLength | crates/bevy_render/src/batching/no_gpu_preprocessing.rs:108-121 | the batch range lengths coalesced from a run of pushes sum to the number of pushes |
| BatchSpec.BinBatchesLength | crates/bevy_render/src/batching/no_gpu_preprocessing.rs:96-121 | a bin's batch range lengths sum to the number of its entities that had data |
| BatchSpec.MaximalStep | crates/bevy_render/src/batching/no_gpu_preprocessing.rs:108-117 | a new batch is opened only when the instance cannot extend the last, so no two neighbouring batches are mergeable |
| BatchSpec.CoalesceAllMaximal | crates/bevy_render/src/batching/no_gpu_preprocessing.rs:108-117 | no two neighbouring batches of a bin could have been one |
| BatchSpec.RepresentativesStep | crates/bevy_render/src/batching/no_gpu_preprocessing.rs:112-116 | one step keeps every batch represented by the entity whose instance opened it |
| BatchSpec.CoalesceAllDraws | crates/bevy_render/src/batching/no_gpu_preprocessing.rs:96-121 | a bin's batches draw one instance per pushed entity |
| BatchSpec.CoalesceAllRepresentatives | crates/bevy_render/src/batching/no_gpu_preprocessing.rs:112-116 | each batch's representative is the entity whose instance opened it |
| BatchSpec.Feed | crates/bevy_render/src/batching/no_gpu_preprocessing.rs:96-101 | a bin pushes at most one element per entity |
| BatchSpec.FeedOne | crates/bevy_render/src/batching/no_gpu_preprocessing.rs:97-101 | one entity pushes at most one element |
| BatchSpec.FeedEntities | crates/bevy_render/src/batching/no_gpu_preprocessing.rs:96-101 | the pushed entities are exactly the bin's entities that had data, each once, in bin order |
| BatchSpec.FeedSpec | crates/bevy_render/src/batching/no_gpu_preprocessing.rs:96-101 | the pushed entities are the bin's entities with data, in bin order and each once. Push `k` carries the data of the `k`-th of them and lands at the buffer's `n0 + k`-th placement |
| BatchSpec.FeedSnoc | crates/bevy_render/src/batching/no_gpu_preprocessing.rs:96-101 | one more entity is one more loop step |
| BatchSpec.FeedOneAfter | crates/bevy_render/src/batching/no_gpu_preprocessing.rs:96-101 | one entity after two runs of pushes continues the second run where the first left the buffer |
| BatchSpec.FeedAppend | crates/bevy_render/src/batching/no_gpu_preprocessing.rs:96-101 | the pushes of `a ++ b` are those of `a` followed by those of `b`, started where `a` left the buffer |
| BatchSpec.SkippedEntityChangesNothing | crates/bevy_render/src/batching/no_gpu_preprocessing.rs:97-100 | an entity without batch data pushes nothing and changes no batch, wherever it sits in the bin |
| BatchSpec.FeedSkip | crates/bevy_render/src/batching/no_gpu_preprocessing.rs:97-100 | the loop skips an entity without data |
| BatchSpec.FeedPush | crates/bevy_render/src/batching/no_gpu_preprocessing.rs:97-101 | the loop pushes an entity with data at the next placement |
| BatchSpec.CoalesceAllSnoc | crates/bevy_render/src/batching/no_gpu_preprocessing.rs:108-121 | one more pushed instance is one more coalescing step |
| NoGpuBatching.BatchedInstanceBuffer.constructor | crates/bevy_render/src/batching/no_gpu_preprocessing.rs:33-35 | a new buffer is empty |
| NoGpuBatching.BatchedInstanceBuffer.Push | crates/bevy_render/src/batching/no_gpu_preprocessing.rs:101 | `push` appends the data and returns the placement for the buffer's current length |
| NoGpuBatching.AllInEach | crates/bevy_render/src/batching/no_gpu_preprocessing.rs:96 | the key-presence predicate holds iff every key is in the map |
| NoGpuBatching.MissingKey | crates/bevy_render/src/batching/no_gpu_preprocessing.rs:129 | one missing key breaks key presence |
| NoGpuBatching.PresentUpToAll | crates/bevy_render/src/batching/no_gpu_preprocessing.rs:96 | the first `count` keys are present iff each of them is in the map |
| NoGpuBatching.BatchableSets | crates/bevy_render/src/batching/no_gpu_preprocessing.rs:94-125 | exactly one batch set per batchable key, in key order |
| NoGpuBatching.UnbatchableBins | crates/bevy_render/src/batching/no_gpu_preprocessing.rs:128-138 | the unbatchable pass keeps the set of bin keys |
| NoGpuBatching.PrepareViews | crates/bevy_render/src/batching/no_gpu_preprocessing.rs:89-139 | one prepared state per view |
| NoGpuBatching.BatchableSetsAt | crates/bevy_render/src/batching/no_gpu_preprocessing.rs:94-125 | batch set `i` is the coalesced pushes of key `i`'s bin, started where the bins of the earlier keys left the buffer |
| NoGpuBatching.BinBatchesShape | crates/bevy_render/src/batching/no_gpu_preprocessing.rs:96-121 | a bin's batch set draws exactly its pushed instances, in push order, and the pushed entities are the bin's entities with data. Its batches are non-empty, no two neighbours are mergeable, and each is represented by the entity that opened it |
| NoGpuBatching.UnbatchableGain | crates/bevy_render/src/batching/no_gpu_preprocessing.rs:128-138 | an unbatchable bin gains one buffer index per entity with data, the `k`-th at the buffer's `m + k`-th placement |
| NoGpuBatching.BatchableSetsNext | crates/bevy_render/src/batching/no_gpu_preprocessing.rs:94-125 | one more batchable key appends its bin's batch set and its pushes |
| NoGpuBatching.BatchableStep | crates/bevy_render/src/batching/no_gpu_preprocessing.rs:94-125 | the batchable loop's step, stated on the buffer before and after one bin |
| NoGpuBatching.UnbatchableBinsNext | crates/bevy_render/src/batching/no_gpu_preprocessing.rs:128-138 | one more unbatchable key appends its entities' instances to that bin alone |
| NoGpuBatching.UnbatchableStep | crates/bevy_render/src/batching/no_gpu_preprocessing.rs:128-138 | the unbatchable loop's step, stated on the bins and buffer before and after one key |
| NoGpuBatching.PhaseComposes | crates/bevy_render/src/batching/no_gpu_preprocessing.rs:92-138 | the batchable pass followed by the unbatchable pass, on the same buffer, is one phase |
| NoGpuBatching.PrepareViewsNext | crates/bevy_render/src/batching/no_gpu_preprocessing.rs:89-139 | one more view appends its prepared phase and its pushes |
| NoGpuBatching.ViewAdvances | crates/bevy_render/src/batching/no_gpu_preprocessing.rs:89-139 | preparing view `i` advances the states and buffer by view `i`'s share |
| NoGpuBatching.GainInstance | crates/bevy_render/src/batching/no_gpu_preprocessing.rs:136 | adding one instance to a bin extends that bin's buffer indices by it |
| NoGpuBatching.BinnedRenderPhase.PrepareBatchables | crates/bevy_render/src/batching/no_gpu_preprocessing.rs:94-125 | the batchable loop succeeds iff every batchable key has a bin. It then appends one batch set per key, in key order, even for empty bins, and the buffer gains exactly those bins' pushes. Nothing else in the phase changes |
| NoGpuBatching.BinnedRenderPhase.BatchNext | crates/bevy_render/src/batching/no_gpu_preprocessing.rs:95-124 | the loop body for key `i` keeps the loop's relation to `BatchableSets` |
| NoGpuBatching.BinnedRenderPhase.PrepareUnbatchables | crates/bevy_render/src/batching/no_gpu_preprocessing.rs:128-138 | the unbatchable loop succeeds iff every unbatchable key has a bin. Each bin then gains one instance per entity with data, in entity order, and the buffer gains exactly those pushes |
| NoGpuBatching.BinnedRenderPhase.AddNext | crates/bevy_render/src/batching/no_gpu_preprocessing.rs:129-137 | the loop body for key `i` keeps the loop's relation to `UnbatchableBins` |
| NoGpuBatching.BinnedRenderPhase.AddUnbatchableInstances | crates/bevy_render/src/batching/no_gpu_preprocessing.rs:129-137 | one bin gains the placements of its entities with data, in order; the buffer gains their data; other bins are unchanged |
| NoGpuBatching.BinnedRenderPhase.Prepare | crates/bevy_render/src/batching/no_gpu_preprocessing.rs:90-138 | one view's phase succeeds iff all keys have bins, and then its new state and the buffer are exactly `PreparePhase` |
| NoGpuBatching.BatchBin | crates/bevy_render/src/batching/no_gpu_preprocessing.rs:95-122 | one bin's loop returns the coalesced batches of the instances pushed for its entities with data, and the buffer gains exactly their data |
| NoGpuBatching.BinStepPush | crates/bevy_render/src/batching/no_gpu_preprocessing.rs:101-121 | a pushed entity advances both the pushes and the batch set by one step |
| NoGpuBatching.AddInstance | crates/bevy_render/src/batching/no_gpu_preprocessing.rs:108-121 | opening `index..index` when the instance cannot extend the last batch, then ending the last batch at `index + 1`, is one coalescing step |
| NoGpuBatching.FlushThenExtend | crates/bevy_render/src/batching/no_gpu_preprocessing.rs:108-121 | after the flush there is a last batch, and extending it is `Coalesce` |
| NoGpuBatching.BatchAndPrepareBinnedRenderPhase | crates/bevy_render/src/batching/no_gpu_preprocessing.rs:79-140 | the system succeeds iff every view has all its bins. Then each view's state is its share of `PrepareViews`, processed in view order on the shared buffer, and the buffer gains exactly all pushes |
| NoGpuBatching.PrepareNext | crates/bevy_render/src/batching/no_gpu_preprocessing.rs:89-139 | preparing view `i` keeps the loop's relation to `PrepareViews` and leaves later views untouched |
| NoGpuBatching.PrepareSortedItem | crates/bevy_render/src/batching/no_gpu_preprocessing.rs:62-73 | an item without data returns `None` and changes nothing. Otherwise its data is pushed, its batch range is `index..index+1` with the pushed dynamic offset, and its compare data, which may itself be absent, is returned as it is |

## Left out

- The derives that delegate to code not part of this model: `derive_world_query`, `derive_component` and the four label derives. Also `bevy_ecs_path` and manifest lookup.
- `Syntax.Attr.GetIdent`: a path is a list of segment names, so `Path::get_ident` returning `None` for a leading `::` or for generic arguments on the one segment is not modelled.
- syn/quote mechanics: spans, compile-error tokens, generics splitting and the `filter_map`/`unzip` of type parameters. Tokens are abstract values and types are opaque names.
- `derive_bundle`'s `parse_macro_input!` wrapper and `into_compile_error`: a rejection is an `Err` carrying the message.
- `BundleDerive.DeriveBundle`: the `idx as u32` cast of a tuple-struct field index is not modelled, since no struct has 2^32 fields.
- `AllTuplesMacro.Expand`: `start > end` is an `Err`, standing for the `usize` subtraction overflow. Running out of memory in `Vec::with_capacity` for a huge range is not modelled.
- The ParamSet impl's `ReadOnlySystemParamFetch` bound and the `get_param` that wraps the state tuple in a `ParamSet` struct (lib.rs:289-301). They carry no logic beyond what `ImplParamSet` and `AccessorSelects` state.
- The real access types and each parameter's own `init` and `new_archetype`. These are an abstract conflict predicate and an abstract access function.
- `SystemParamDerive`: the generated `init`, `new_archetype` and `apply` only forward to the state tuple and are not modelled. A type-parameter list of the `Fetch` state is not modelled either.
- The GPU side of `no_gpu_preprocessing.rs`:
  - `write_batched_instance_buffer` (device and queue upload);
  - the render-device argument of `BatchedInstanceBuffer::new`, and `instance_data_binding`;
  - the internals of `GpuArrayBuffer::push`, whose placement is a parameter.
- The sorted-phase driver that calls the per-item closure. It is not part of this model; only the closure is.
- The ECS `Query` over views and `StaticSystemParam`: the views are a list of distinct phase objects, and the batch-data lookup is a function.
- `NoGpuBatching.BinnedRenderPhase.Prepare`: a missing key panics in the source. The model returns `ok == false` and does not state the partially updated phase left behind.
- `NoGpuBatching.BatchAndPrepareBinnedRenderPhase`: same as above, for the views prepared before the panic.
- `UnbatchableBinnedEntityIndexSet::add` is modelled as appending to a sequence of buffer indices. Its compact sparse/dense representations are not modelled.
- `u32` instance indices: `index + 1` is unbounded here, so a wrap-around at 2^32 instances is not modelled.
- The timing benchmark `iter_simple_foreach.rs`: float arithmetic over spawned entities, with no logic to state.

## Findings

| source | as written | input that shows it | evidently intended | confidence | as-written member | corrected member |
|---|---|---|---|---|---|---|
| crates/bevy_ecs/macros/src/lib.rs:364-375, 441-444 | `field_indices` records a fetched field's position among all fields, but the `Fetch` state tuple holds only the fetched fields | `struct S { #[system_param(ignore)] a: A, b: B }`: `b` is read from `state.state.1` of a one-element tuple | the index of a fetched field among the fetched fields, so that fetched field `k` reads element `k` | not executed | SystemParamDerive.IgnoredFirstCounterexample | SystemParamDerive.CorrectedBindsFields |
