# Verified model of the yikv server

A Dafny model of the parts of the yikv server and its tools whose correctness is
hard to see from the code: the concurrent hot reload of tables, the FlatBuffers
serializer every RPC uses and its sibling FlexBuffers, the Kafka ingest with crashes and
restarts, the deployment of index versions, the row codec and the protobuf
envelope. `dafny verify dfyconfig.toml` checks the whole project.

**Hot reload** (`Registry*.dfy`, `ReloadFreshness.dfy`). A state machine with one
action per critical section of `TableRegistry`: any number of threads inside
`LoadTable` and `ReloadTable` interleave with RPCs that acquire, copy and drop
handles and with tools that re-point paths. The inductive invariant is stated per
table on a small view of the state. On top of it: no handle outlives its index,
no gap, no stale swap, no deadlock, which tables read their topic, from which
directory a successful reload serves, and that undisturbed calls succeed.

**FlatBuffers** (`Bits.dfy`, `VectorDownward.dfy`, `Flat*.dfy`). `vector_downward`
is a class over one byte array that stands for two sequences.
`FlatBuilder.dfy` says on values what each builder operation computes;
`FlatBufferBuilder.dfy` is the builder as a class over that vector, each method
proved to compute its value-level function. A run is a sequence of commands, the
catalog says from the commands alone what each object holds, and the theorems say
that a reader finds exactly that, shared vtables or not, aligned from the front.
`FlatRoom.dfy` says from the commands alone which runs are legal.

**FlexBuffers** (`Flex*.dfy`). The self-referential choice of one width for a
vector whose offsets depend on that width; the builder as a class with its stack
and pools; trees of any nesting through builder, finished buffer and reader; and
lookups in maps.

**Stream ingest and Kafka** (`Stream*.dfy`, `Kafka*.dfy`). Merge semantics on an
index that maps key strings to documents; the consumer as small steps that may
crash between any two of them, with an offset file rewritten byte by byte; the
offline catch-up and its handoff. `StreamEffects.dfy` says what a sequence of
messages does to any row; from it follow the exact conditions under which a
redelivered batch or a cut offset shows. `StreamMeaning.dfy` says what a message
means in the words of its sender.

**Versions and deploy** (`Versions.dfy`, `Artifacts.dfy`, `Deploy.dfy`). Pull,
prune and switch as steps on whole directories; and one machine in which the
deploying agent, the server's threads and pushes to the store run together
(`DeploySuccess.dfy`: and reach their end).

**Rows and envelope** (`RowCodec.dfy`, `FlatRecords.dfy`, `FlatRows.dfy`,
`FlatMessages.dfy`, `Protobuf.dfy`). Rows as values, the same rows over the
builder's bytes, and Put and Get messages read from their roots.

What the code demands and the model states:

- Handles obtained by `Acquire` are covered; `ForEach` reads slots without
  pinning them (apps/yikv_server/table_registry.h:93-99) and is not.
- `OpenIndex` throws or registers an index; opening a path that does not resolve
  throws. `BuildSlotAfterOpen` returns a slot or null and does not throw: an
  exception from starting the consumer's thread or from an allocation would leave
  a key open without a slot (apps/yikv_server/table_registry.cc:146, 266). Until
  the drain ends both the old and the new consumer of a table run (`KafkaShared.dfy`).
- What a directory resolves to may only be over-estimated: a staging link is
  taken to resolve to the directory it was made for also when that directory has
  been pruned, and every opening may fail.
- The builder's assertions are preconditions: fields not set twice, ids even and
  at least 4, table size below 64 KiB, buffer size below the 2 GiB limit after
  each call, offsets non-zero and inside the buffer.
- Stored rows have one slot per schema field, of the field's kind, and no
  elements in arrays of Bool, which neither ingest path can create; schema names
  and ids are unique, JSON members have unique keys.
- Map keys of a FlexBuffers map are C strings and not repeated, as the builder's
  comments ask (deps/include/flatbuffers/flexbuffers.h:1195-1201).
- A topic is a sequence of messages with consecutive offsets from 0.

Where code and documentation differ the model follows the code: pruning does
remove the version it was told to keep when `keep_n` versions are newer
(tools/artifact_sync/artifact_sync.py:273), and a reload that arrives while a
load of the same unregistered table is in flight may return ok without reopening.

## Model

| member | source | states |
|---|---|---|
| `Registry.KeyIsolation` | apps/yikv_server/table_registry.cc:30-36 | the two DB keys of a table differ, and key pairs of distinct unreserved names are disjoint |
| `Registry.StepOf` | apps/yikv_server/table_registry.cc:118-303 | one critical section of a thread changes nothing but its own locals, the key of its phase, its table's staging link and, at registration or swap, its table's head; never a handle |
| `RegistryInvariant.ActionInv` | apps/yikv_server/table_registry.cc:118-303 | every action of every thread keeps the inductive invariant: which keys are open, at which generation, who holds which lock, which slots are pinned |
| `RegistryTheorems.NoUseAfterClose` | apps/yikv_server/table_registry.cc:172-303 | in every interleaving, each outstanding handle and each running consumer refers to an index that is open at the generation its slot was built from |
| `RegistryTheorems.ClosedStaysClosed` | apps/yikv_server/table_registry.cc:118-303 | each opening is a new generation: an index that was closed never comes back, whatever its key is opened for later |
| `RegistryTheorems.NeverReopened` | apps/yikv_server/table_registry.cc:118-303 | in every run two keys never share an index, and an index an action closes is never open again, also when the same directory is |
| `RegistryTheorems.CloseIsHarmless` | apps/yikv_server/table_registry.cc:254-293 | no action closes, or reopens under another generation, an index that a handle outliving the action refers to |
| `RegistryTheorems.CopyPins` | apps/yikv_server/table_registry.h:50-65 | a copied handle keeps its slot open until it is given back itself, also when the handle it was copied from is given back first |
| `RegistryTheorems.DeadBranches` | apps/yikv_server/table_registry.cc:73-78 | in every run the defensive branches are never taken: the index was opened when a slot is built, the table is unregistered at registration, `CloseIndex(next_db)` finds nothing to close, a table found once is not lost |
| `RegistryTheorems.OtherTablesUntouched` | apps/yikv_server/table_registry.cc:233-293 | loading or reloading one table never opens or closes a key of another |
| `RegistryTheorems.HeadsOnlyAdvance` | apps/yikv_server/table_registry.cc:153-164 | a registered table stays registered, its live slot only gets newer, and its swap count grows by exactly the swaps of the run |
| `RegistryTheorems.AcquireSucceeds` | apps/yikv_server/table_registry.cc:172-181 | from registration on every Acquire returns a handle on the live slot, over an open index |
| `RegistryTheorems.ReloadIsVisible` | apps/yikv_server/table_registry.cc:273-303 | when a reload reports success its slot is live, and every later Acquire sees that slot or a newer one |
| `RegistryTheorems.OkOnlyAfterSwap` | apps/yikv_server/table_registry.cc:293-302 | a reload of a registered table reports success only from the step after its swap, drain and close |
| `RegistryTheorems.FailedReloadKeepsHead` | apps/yikv_server/table_registry.cc:226-271 | a reload that fails leaves slot and `staging_is_live` exactly as it found them, in every interleaving |
| `RegistryTheorems.SwapsCounted` | apps/yikv_server/table_registry.cc:273-279 | the head's swap count is the number of swaps performed since the table was first registered |
| `RegistryTheorems.AtRestOneKey` | apps/yikv_server/table_registry.cc:224-303 | at rest exactly one key of a registered table is open, `name~reload` iff the number of completed swaps is odd; an unregistered table has none |
| `RegistryConsumers.ConsumersRun` | apps/yikv_server/table_registry.cc:86-107 | in every interleaving a KafkaSource runs exactly if its slot was built for a table with a kafka section and is on its way in, live, or not yet stopped |
| `RegistryConsumers.LiveSlotConsumes` | apps/yikv_server/table_registry.cc:86-107 | the live slot of a table reads its topic iff it was built with a kafka section |
| `RegistryConsumers.AtRestOneConsumer` | apps/yikv_server/table_registry.cc:118-303 | at rest a table has the consumer of its live slot, if that was built with a kafka section, and no other |
| `RegistryConsumers.BuildStartsConsumer` | apps/yikv_server/table_registry.cc:86-107 | the build step itself starts the consumer, or none |
| `RegistryProgress.DrainWaitsForHandles` | apps/yikv_server/table_registry.cc:283-293 | the old slot is drained iff no handle refers to it; neither a head nor another thread can hold it |
| `RegistryProgress.NoDeadlock` | apps/yikv_server/table_registry.cc:118-303 | in every reachable state without outstanding handles in which a call is under way, some thread in a call can take its next step |
| `RegistryProgress.OwnStepDescends` | apps/yikv_server/table_registry.cc:118-303 | every step of a thread brings its call nearer to its end: at most 16 steps of its own |
| `RegistryProgress.EveryCallEnds` | apps/yikv_server/table_registry.cc:118-303 | once no new call starts and the handles are released only boundedly many steps are left, and where none is possible every call has returned |
| `RegistryProgress.HandlesReturn` | apps/yikv_server/table_registry.h:50-65 | handles can always be given back one by one until none is left, and nothing else changes |
| `RegistrySuccess.LoadSucceeds` | apps/yikv_server/table_registry.cc:118-165 | a load of an unregistered table that nobody disturbs succeeds and registers it over what its path resolves to |
| `RegistrySuccess.ReloadSucceeds` | apps/yikv_server/table_registry.cc:196-303 | a reload of a registered table that nobody disturbs succeeds and serves what its path resolves to |
| `ReloadFreshness.ReloadServesPath` | apps/yikv_server/table_registry.cc:198-279 | if the path is not re-pointed during the call and no load in flight had opened the unregistered table from elsewhere, a successful reload serves the directory the path resolves to |
| `ReloadFreshness.StaleReload` | apps/yikv_server/table_registry.cc:124-127 | the exception is real: whenever such a load is in flight, some interleaving returns ok and serves the other directory |
| `ReloadFreshness.StaleReloadHappens` | apps/yikv_server/table_registry.cc:124-135 | for every table, two directories and two threads, a run from the start ends in such a stale reload |
| `ReloadFreshness.LinkHoldsDirectory` | apps/yikv_server/table_registry.cc:225-245 | the staging link holds the directory resolved before it was made, also when the table's path is re-pointed before the opening; a link made while nothing resolved leads to the path itself |
| `ReloadFreshness.RelinkResolves` | apps/yikv_server/table_registry.cc:236-258 | a re-pointed path resolves to its new directory, and so does a link that leads through it; nothing else changes |
| `Versions.Max` | tools/artifact_sync/artifact_sync.py:145-151 | the build id resolved for a latest pull is the lexicographic maximum |
| `Versions.PruneLocalVersions` | tools/artifact_sync/artifact_sync.py:272-299 | exactly the `keep_n` largest of the local versions and the pulled one are left; the pulled one survives iff fewer than `keep_n` versions are newer (its doc string promises more) |
| `Versions.AboveIsBefore` | tools/artifact_sync/artifact_sync.py:286-290 | in descending order the versions above the i-th are the i before it |
| `Versions.LessIff` | tools/artifact_sync/artifact_sync.py:145-151 | the order: a proper prefix comes first, else the first differing code point decides |
| `Versions.NumericOrder` | tools/artifact_sync/artifact_sync.py:145-151 | ids of equal length made of digits are ordered as numbers |
| `Versions.LatestStamp` | tools/artifact_sync/artifact_sync.py:145-151 | of builds named by time stamps of one length the latest is the one with the greatest stamp |
| `Artifacts.SurvivesIff` | tools/artifact_sync/artifact_sync.py:285-299 | a local version survives a pull's pruning iff it is not listed or fewer than `keep_n` versions are newer |
| `Artifacts.PullResolvesIff` | tools/artifact_sync/artifact_sync.py:311-341 | for every pull: before the link is replaced the old `active` resolves iff its version survives, afterwards `active` resolves iff the pulled version does |
| `Artifacts.StepCoherent` | tools/artifact_sync/artifact_sync.py:311-341 | every step of pushes and latest pulls with `keep_n` 0 or at least 2 keeps `active` on an existing directory |
| `Artifacts.ActiveAlwaysResolves` | tools/artifact_sync/artifact_sync.py:311-341 | in every such run `active` resolves at every step, also between pruning and link replacement |
| `Artifacts.KeepOneDangles` | tools/artifact_sync/artifact_sync.py:285-299 | with `keep_n` 1 a newer pull removes the active version before the link is replaced |
| `Artifacts.BuildIs` | tools/artifact_sync/artifact_sync.py:145-151 | the build asked for is the one pulled; none or an empty id means the greatest in the store |
| `Artifacts.StrippedIs` | tools/artifact_sync/artifact_sync.py:145-147 | slashes around an explicit id are removed, and nothing else |
| `Artifacts.PullDelivers` | tools/artifact_sync/artifact_sync.py:311-341 | a whole pull: `active` names the build asked for, whose directory holds what the store held when it was copied, and no other version changes |
| `Artifacts.PushThenPull` | tools/artifact_sync/artifact_sync.py:197-246 | after a push of the newest build a pull of the latest makes that build active with the content that was pushed |
| `Artifacts.SwitchHolds` | tools/artifact_sync/artifact_sync.py:352-372 | after a switch `active` stays on the version named, whatever is pushed, copied or pruned, until the next switch |
| `Artifacts.FailedPullChangesNothing` | tools/artifact_sync/artifact_sync.py:231-236 | a pull of a build that is not in the store leaves everything as it was |
| `Artifacts.NeverPruned` | tools/artifact_sync/artifact_sync.py:273-294 | `active` and hidden directories are never pruned |
| `Deploy.ReloadNeedsPath` | apps/yikv_server/table_registry.cc:238-264 | a reload of a table whose path dangles, and keeps dangling, never returns ok: resolution accepts the path, the opening fails |
| `Deploy.ConsistentMove` | tools/pipeline_agent/pipeline_ops.py:487-518 | at every step of pull, unlink, link and server the path the server sees is what link, `active` and version directories say |
| `Deploy.ProgressMove` | tools/pipeline_agent/pipeline_ops.py:712-745 | every move keeps the agent's progress: the pull under way or finished, then the link absent, then leading to `active` |
| `Deploy.LinkWindow` | tools/pipeline_agent/pipeline_ops.py:514-518 | between unlink and link the table's path resolves to nothing, whatever it did before |
| `Deploy.DeployKeepsServing` | tools/pipeline_agent/pipeline_ops.py:712-745 | at every step of a deployment, the absent link included, every Acquire of a registered table returns a handle on an open index |
| `Deploy.DeployServes` | tools/pipeline_agent/pipeline_ops.py:712-745 | if the reload a deployment asked for is about to return ok and no load of the table was in flight when it was asked for, `active` resolves to the pulled build and the live slot was opened from that build's own directory |
| `Deploy.DeployDelivers` | tools/artifact_sync/artifact_sync.py:231-246 | what was pushed last before the copy is what the deployed directory holds, whatever runs in between |
| `Deploy.PrunedBuildIsNotDeployed` | tools/pipeline_agent/pipeline_ops.py:712-745 | a build that its own pull prunes away is never reported as deployed |
| `DeploySuccess.DeploySucceeds` | tools/pipeline_agent/pipeline_ops.py:712-745 | a deployment of a build that survives its own pruning, of a table nobody is using, leads to an ok reload that serves the build's directory |
| `Bits.PaddingAligns` | deps/include/flatbuffers/base.h:458-460 | `~size + 1 & (a - 1)` is the least number of bytes that makes the size a multiple of `a`, for every power of two |
| `Bits.RoundUpAligns` | deps/include/flatbuffers/vector_downward.h:273-275 | `(x + a - 1) & ~(a - 1)` is the least multiple of `a` not below `x` |
| `Bits.DecodeEncode` | deps/include/flatbuffers/base.h:416-443 | a little-endian scalar reads back |
| `VectorDownwards.ReallocateDownward` | deps/include/flatbuffers/allocator.h:41-63 | both used ends of a block are copied to the ends of the larger one |
| `VectorDownwards.VectorDownward.Reallocate` | deps/include/flatbuffers/vector_downward.h:269-284 | growth leaves both sequences unchanged, at least `len` free bytes between them and an aligned capacity |
| `VectorDownwards.VectorDownward.EnsureSpace` | deps/include/flatbuffers/vector_downward.h:141-148 | at least `len` free bytes, both sequences unchanged |
| `VectorDownwards.VectorDownward.MakeSpace` | deps/include/flatbuffers/vector_downward.h:150-157 | the data grows at the front by `len` bytes, what was there stays |
| `VectorDownwards.VectorDownward.Push` | deps/include/flatbuffers/vector_downward.h:195-203 | data becomes the bytes followed by the old data; scratch unchanged |
| `VectorDownwards.VectorDownward.Fill` | deps/include/flatbuffers/vector_downward.h:213-216 | data becomes zeros followed by the old data; scratch unchanged |
| `VectorDownwards.VectorDownward.Pop` | deps/include/flatbuffers/vector_downward.h:224-227 | the front bytes are dropped; scratch unchanged |
| `VectorDownwards.VectorDownward.ScratchPush` | deps/include/flatbuffers/vector_downward.h:205-209 | scratch grows at the back; data unchanged |
| `VectorDownwards.VectorDownward.ScratchPop` | deps/include/flatbuffers/vector_downward.h:229 | scratch shrinks at the back; data unchanged |
| `VectorDownwards.VectorDownward.Clear` | deps/include/flatbuffers/vector_downward.h:90-101 | both sequences become empty, the allocation is kept |
| `VectorDownwards.VectorDownward.WriteAt` | deps/include/flatbuffers/vector_downward.h:193 | a store at a distance from the end replaces exactly those bytes |
| `VectorDownwards.VectorDownward.ReadAt` | deps/include/flatbuffers/vector_downward.h:193 | a load at a distance from the end reads those bytes of the data |
| `FlatBufferBuilders.FlatBufferBuilder.Align` | deps/include/flatbuffers/flatbuffer_builder.h:284-291 | the object refines the value-level Align |
| `FlatBufferBuilders.FlatBufferBuilder.PreAlign` | deps/include/flatbuffers/flatbuffer_builder.h:515-519 | refines PreAlign |
| `FlatBufferBuilders.FlatBufferBuilder.PushElement` | deps/include/flatbuffers/flatbuffer_builder.h:308-314 | refines PushElement and returns the new size as offset |
| `FlatBufferBuilders.FlatBufferBuilder.AddElement` | deps/include/flatbuffers/flatbuffer_builder.h:324-340 | refines AddElement: elided when equal to the default and not forced |
| `FlatBufferBuilders.FlatBufferBuilder.AddOffset` | deps/include/flatbuffers/flatbuffer_builder.h:342-345 | refines AddOffset |
| `FlatBufferBuilders.FlatBufferBuilder.ReferTo` | deps/include/flatbuffers/flatbuffer_builder.h:366-390 | aligns and returns the forward distance, which is at least 4 |
| `FlatBufferBuilders.FlatBufferBuilder.WriteVTable` | deps/include/flatbuffers/flatbuffer_builder.h:426-449 | the loop over the scratch pad writes the vtable value of the open table |
| `FlatBufferBuilders.FlatBufferBuilder.FindShared` | deps/include/flatbuffers/flatbuffer_builder.h:451-466 | the search loop returns the first remembered vtable with equal bytes |
| `FlatBufferBuilders.FlatBufferBuilder.EndTable` | deps/include/flatbuffers/flatbuffer_builder.h:417-483 | refines EndTable, including pop of a duplicate vtable and the patch of the vtable offset |
| `FlatBufferBuilders.FlatBufferBuilder.CreateString` | deps/include/flatbuffers/flatbuffer_builder.h:1374-1380 | refines CreateString |
| `FlatBufferBuilders.FlatBufferBuilder.StartVector` | deps/include/flatbuffers/flatbuffer_builder.h:676-683 | refines StartVector |
| `FlatBufferBuilders.FlatBufferBuilder.EndVector` | deps/include/flatbuffers/flatbuffer_builder.h:669-673 | refines the closing length push |
| `FlatBufferBuilders.FlatBufferBuilder.CreateVector` | deps/include/flatbuffers/flatbuffer_builder.h:737-764 | refines CreateVector of scalars |
| `FlatBufferBuilders.FlatBufferBuilder.CreateOffsetVector` | deps/include/flatbuffers/flatbuffer_builder.h:785-789 | the loop from the last to the first offset refines CreateOffsetVector |
| `FlatBufferBuilders.FlatBufferBuilder.Finish` | deps/include/flatbuffers/flatbuffer_builder.h:1257-1282 | refines Finish |
| `FlatBufferBuilders.FlatBufferBuilder.Clear` | deps/include/flatbuffers/flatbuffer_builder.h:167-175 | an empty builder with its two switches kept |
| `FlatRoom.SmallRunsAreLegal` | deps/include/flatbuffers/flatbuffer_builder.h:308-520 | well-formed commands whose sizes with paddings add up to less than the limit never meet an assertion of the builder, whatever bytes they produce |
| `FlatDriver.Build` | deps/include/flatbuffers/flatbuffer_builder.h:308-520 | every legal sequence of commands runs on the object without failing an assertion and ends with the bytes of the value-level run |
| `FlatReader.FieldOffsetGrows` | deps/include/flatbuffers/table.h:35-43 | growth at the front leaves every field lookup of an earlier table unchanged |
| `FlatTables.VTableReads` | deps/include/flatbuffers/flatbuffer_builder.h:432-449 | the vtable holds its size first, each stored member's distance in its slot, zero for every other member |
| `FlatTables.TableSizeReads` | deps/include/flatbuffers/flatbuffer_builder.h:433-438 | the second number of a vtable is the size of its table |
| `FlatTables.EndTableUses` | deps/include/flatbuffers/flatbuffer_builder.h:451-482 | whether the vtable is new or shared, the table's vtable offset leads to bytes equal to the vtable just computed |
| `FlatTheorems.ExecInv` | deps/include/flatbuffers/flatbuffer_builder.h:308-520 | every command keeps all earlier objects readable and adds its own |
| `FlatTheorems.RoundTrip` | deps/include/flatbuffers/flatbuffer_builder.h:332-483 | after every legal run every object reads back as its command asked, every offset landing on the object it referred to |
| `FlatTheorems.AddedIsRead` | deps/include/flatbuffers/table.h:29-56 | every value added to any table of any run is read back at the end of the run, also when it was left out as its default |
| `FlatTheorems.NeverAddedIsDefault` | deps/include/flatbuffers/table.h:45-56 | a member never added reads as the reader's default or as null |
| `FlatTheorems.SharingIsInvisible` | deps/include/flatbuffers/flatbuffer_builder.h:451-482 | two runs differing only in when vtables are shared build tables a reader cannot tell apart |
| `FlatTheorems.BytesAreFinal` | deps/include/flatbuffers/flatbuffer_builder.h:466-468 | no byte already written ever changes, not even by taking back a duplicate vtable |
| `FlatTheorems.RememberedDiffer` | deps/include/flatbuffers/flatbuffer_builder.h:470-473 | while sharing is on, the remembered vtables are whole and pairwise different |
| `FlatFinish.FinishedBuffer` | deps/include/flatbuffers/flatbuffer_builder.h:1257-1282 | a finished buffer's size is a multiple of its alignment, its header names the root, and every scalar, offset, vtable entry and element sits at a front position divisible by its size |
| `FlexBuffers.WidthUIs` | deps/include/flatbuffers/flexbuffers.h:188-198 | the mask tests find the least width that holds the number |
| `FlexBuffers.WidthIIs` | deps/include/flatbuffers/flexbuffers.h:200-203 | the least width whose two's complement range holds the number |
| `FlexBuffers.FindElemWidth` | deps/include/flatbuffers/flexbuffers.h:1520-1547 | the loop always finds a width equal to what its own offset needs; the closing assertion is unreachable |
| `FlexBuffers.WiderStillFits` | deps/include/flatbuffers/flexbuffers.h:1601-1634 | an offset chosen for one width still fits when the vector is written with any larger width at a smaller or equal index |
| `FlexBuilders.Builder.CommonBitWidth` | deps/include/flatbuffers/flexbuffers.h:1607-1623 | the width loop computes the maximum over the length, the keys and all elements |
| `FlexBuilders.Builder.WriteOffset` | deps/include/flatbuffers/flexbuffers.h:1453-1457 | writes the backward distance; its precondition is the original's assertion |
| `FlexBuilders.Builder.WriteAny` | deps/include/flatbuffers/flexbuffers.h:1559-1568 | writes the element's bytes; a float is never narrower than 32 bits |
| `FlexBuilders.Builder.CreateVector` | deps/include/flatbuffers/flexbuffers.h:1601-1657 | appends exactly the vector's bytes and returns its position, type and width; WriteOffset's assertion never fails |
| `FlexBuilders.Builder.EndVector` | deps/include/flatbuffers/flexbuffers.h:1161-1167 | the elements leave the stack and the vector, itself a proper element, takes their place |
| `FlexVectorTypes.TypedVectorTypes` | deps/include/flatbuffers/flexbuffers.h:103-126 | element type and length are recovered from the type of a typed vector |
| `FlexBuilders.Builder.Int` | deps/include/flatbuffers/flexbuffers.h:1008 | pushes a value whose width holds it |
| `FlexVectors.VectorReads` | deps/include/flatbuffers/flexbuffers.h:1634-1645 | every element of a vector reads back at its index, offsets by going back the stored distance, and no offset exceeds the common width |
| `FlexVectors.VectorTypes` | deps/include/flatbuffers/flexbuffers.h:1646-1651 | each element's packed type follows the elements of an untyped vector; earlier bytes are kept |
| `FlexVectors.HeaderReads` | deps/include/flatbuffers/flexbuffers.h:1636-1642 | length, keys offset and keys width are found in front of the elements |
| `FlexBuilders.Builder.CreateBlob` | deps/include/flatbuffers/flexbuffers.h:1570-1578 | appends padding, length, bytes and terminator and pushes the position with the width of the length |
| `FlexBuilders.Builder.String` | deps/include/flatbuffers/flexbuffers.h:1089-1106 | a string already in the pool leaves the buffer as it was and refers to the first copy, any other is appended and remembered |
| `FlexBuilders.Builder.Key` | deps/include/flatbuffers/flexbuffers.h:1068-1084 | likewise for keys |
| `FlexBuilders.Builder.EndMap` | deps/include/flatbuffers/flexbuffers.h:1169-1218 | pairs on the stack are sorted by key, the vector of keys and the vector of values that points to it are appended, and the map takes the place of the pairs |
| `FlexBuilders.Builder.Finish` | deps/include/flatbuffers/flexbuffers.h:1398-1414 | appends the root at a width its own offset fits, its packed type and its width |
| `FlexKeys.SortedAscends` | deps/include/flatbuffers/flexbuffers.h:1190-1208 | entries with distinct keys end in strictly ascending strcmp order |
| `FlexKeys.AscendingIsUnique` | deps/include/flatbuffers/flexbuffers.h:1190-1208 | there is only one such arrangement, so the sorting algorithm does not matter |
| `FlexReader.ReadAtGrows` | deps/include/flatbuffers/flexbuffers.h:1430-1440 | whatever tree was readable at a position stays readable, the same, whatever is appended |
| `FlexRoundTrip.TextHeld` | deps/include/flatbuffers/flexbuffers.h:1089-1106 | a string, shared or not, is read from where its value points; the pools stay right |
| `FlexRoundTrip.KeyHeld` | deps/include/flatbuffers/flexbuffers.h:1068-1084 | a key, shared or not, is the C string where its value points |
| `FlexTheorems.EntryReads` | deps/include/flatbuffers/flexbuffers.h:344-352 | entry k of a map is found through the keys' vector and the values' vector alike |
| `FlexTheorems.DictHeld` | deps/include/flatbuffers/flexbuffers.h:1212-1218 | a map reads back as its entries in key order |
| `FlexTheorems.BuildSound` | deps/include/flatbuffers/flexbuffers.h:1146-1218 | putting any tree into a builder in any state keeps all earlier bytes and leaves a value that stands for the tree |
| `FlexTheorems.TreeRoundTrip` | deps/include/flatbuffers/flexbuffers.h:925-933 | every tree of numbers, strings, keys, blobs, untyped vectors, typed and fixed vectors of whatever the builder admits, and maps comes back from the last two bytes of the finished buffer, for every sharing and every forced width; strings of a typed vector come back as keys, cut at their first zero, as AsTypedVector says |
| `FlexLookup.Lookup` | deps/include/flatbuffers/flexbuffers.h:903-919 | binary search over the keys finds the value of the key asked for, and nothing exactly when no entry has that key |
| `FlexLookup.BuiltMapsAscend` | deps/include/flatbuffers/flexbuffers.h:1169-1218 | maps that were built have the keys put in, in the order the search relies on |
| `FlexDriver.Put` | deps/include/flatbuffers/flexbuffers.h:1161-1218 | the builder's calls for a tree leave exactly the state and the stack of the value-level function |
| `FlexDriver.Serialize` | deps/include/flatbuffers/flexbuffers.h:1398-1414 | a builder driven through any tree ends with a buffer from which that tree is read |
| `StreamIngest.CopyDocFromSchema` | apps/yikv_server/stream/json_stream_ingest.cc:21-88 | the copy loop computes the field-wise copy |
| `StreamIngest.CopyIsIdentity` | apps/yikv_server/stream/json_stream_ingest.cc:21-88 | copying a row into a new document gives the row back |
| `StreamIngest.MergeJsonIntoDoc` | apps/yikv_server/stream/json_stream_ingest.cc:188-197 | the merge loop computes the member-wise merge, stopping at the first refusal or exception |
| `StreamIngest.KVIndex.Insert` | apps/yikv_server/stream/json_stream_ingest.cc:232-245 | INSERT: refused for an existing key before any conversion; otherwise stores the merged new document |
| `StreamIngest.KVIndex.UpsertMerge` | apps/yikv_server/stream/json_stream_ingest.cc:247-258 | UPSERT: merges into a copy of the row or a new document; the index is untouched unless the merge succeeds |
| `StreamIngest.KVIndex.Delete` | apps/yikv_server/stream/json_stream_ingest.cc:260-275 | DELETE removes exactly the key |
| `StreamIngest.KVIndex.ApplyStreamJsonObject` | apps/yikv_server/stream/json_stream_ingest.cc:277-292 | dispatch on the lower-cased `_op`, absent or non-string meaning upsert |
| `StreamLaws.MergePointwise` | apps/yikv_server/stream/json_stream_ingest.cc:90-197 | merging acts on each field independently of member order; absent and null members leave fields alone, scalars overwrite, arrays append |
| `StreamLaws.StoredUnderItsKey` | apps/yikv_server/stream/json_stream_ingest.cc:199-230 | the row is stored under the key string that was looked up, for Int32, Int64, String and Bytes keys |
| `StreamLaws.ReservedPkKeepsKey` | apps/yikv_server/stream/json_stream_ingest.cc:188-197 | a pk field with a reserved name is skipped by every merge: the key of the base document stays |
| `StreamLaws.StoredUnderItsKeyIff` | apps/yikv_server/stream/json_stream_ingest.cc:199-258 | a merged row is stored under the key its message was looked up by iff the pk name is not reserved or the base document had that key |
| `StreamLaws.ReservedPkLosesKey` | apps/yikv_server/stream/json_stream_ingest.cc:199-245 | a witness: with `_op` for the pk an INSERT looks up one key and stores under another |
| `StreamLaws.ApplyIsLocal` | apps/yikv_server/stream/json_stream_ingest.cc:232-292 | a message reads and writes only the row of its key |
| `StreamLaws.DifferentKeysCommute` | apps/yikv_server/stream/json_stream_ingest.cc:232-292 | messages for different keys commute, whatever their operations and however ill-typed |
| `StreamLaws.UpsertsCompose` | apps/yikv_server/stream/json_stream_ingest.cc:247-258 | two successful upserts of one row equal one upsert of the joined message: later non-null scalars win, arrays concatenate in order |
| `StreamMeaning.MessageMeans` | apps/yikv_server/stream/json_stream_ingest.cc:277-292 | for every schema, index and message with a key: "delete" in any case of letters removes exactly its row, "insert" is refused for a present key and else stores the new row, "upsert", an empty or no `_op` stores the merged row |
| `StreamMeaning.OtherMessages` | apps/yikv_server/stream/json_stream_ingest.cc:277-292 | any other word is refused, and a message without a usable key changes nothing |
| `StreamMeaning.MembersMean` | apps/yikv_server/stream/json_stream_ingest.cc:89-197 | after a merge each field is as the message says: a converted scalar, the old elements and the new ones, or what it was |
| `StreamMeaning.MergeSucceedsIff` | apps/yikv_server/stream/json_stream_ingest.cc:89-197 | a merge succeeds iff every value given suits its field |
| `StreamMeaning.FirstFailure` | apps/yikv_server/stream/json_stream_ingest.cc:89-197 | a value of the wrong kind for an array is refused, a value that cannot be converted throws |
| `StreamMeaning.IntegersConvert` | apps/yikv_server/stream/json_stream_ingest.cc:89-197 | integers in range stay what they are, others wrap around, fractions are cut towards zero |
| `StreamMeaning.TruthConverts` | apps/yikv_server/stream/json_stream_ingest.cc:89-197 | true and false become 1 and 0 where that is possible |
| `StreamMeaning.TextAndNumbersConvert` | apps/yikv_server/stream/json_stream_ingest.cc:89-197 | texts and numbers keep their values |
| `StreamMeaning.NothingElseConverts` | apps/yikv_server/stream/json_stream_ingest.cc:89-197 | a string is no number, a number no string, arrays, objects and null are no scalars |
| `StreamMeaning.NewDocMeans` | apps/yikv_server/stream/json_stream_ingest.cc:232-245 | a new document holds zero, the empty text or no elements in exactly the fields of the schema |
| `StreamMeaning.KeyMeans` | apps/yikv_server/stream/json_stream_ingest.cc:199-230 | when a message names a row, and that the name is the text or the decimal numeral of its pk |
| `StreamReplay.RepeatedDeliveryConverges` | apps/yikv_server/stream/json_stream_ingest.cc:232-292 | any in-order delivery with restarts at earlier positions leads, once caught up, to the index of a single delivery |
| `StreamReplay.ReplayIsIdempotent` | apps/yikv_server/stream/json_stream_ingest.cc:232-292 | re-applying any suffix of an applied log leaves the index unchanged, for schemas without appendable fields |
| `StreamReplay.AppendBreaksReplay` | apps/yikv_server/stream/json_stream_ingest.cc:97-160 | for every appendable array field there is a one-message log whose replay changes the index |
| `StreamReplay.ReplaySafeIff` | apps/yikv_server/stream/json_stream_ingest.cc:232-292 | replay is harmless for every index and log iff no field can be appended to |
| `StreamEffects.FixedSlot` | apps/yikv_server/stream/json_stream_ingest.cc:232-292 | a field that a message sequence deletes or sets ends at a value that does not depend on the row |
| `StreamEffects.KeptSlot` | apps/yikv_server/stream/json_stream_ingest.cc:232-292 | any other field of a present row keeps its value |
| `StreamEffects.AbsorbedIff` | apps/yikv_server/stream/json_stream_ingest.cc:232-292 | messages change no row after others were applied iff they change neither an absent row nor one with defaults, and fix no field the others do not fix |
| `StreamEffects.UndoneIff` | apps/yikv_server/stream/json_stream_ingest.cc:232-292 | extra messages before a replay show in no row iff the replay deletes the row, or fixes every field they fix and an absent row ends the same |
| `KafkaOffsets.TruncatedResume` | apps/yikv_server/kafka/kafka_source.cc:53-69 | however the text of a non-negative offset is cut, the resume point never passes the next message; it is exact when all digits are left |
| `KafkaOffsets.TruncatedResumeIs` | apps/yikv_server/kafka/kafka_source.cc:53-69 | exactly where a cut offset resumes: at the beginning without digits, else right after the number the digits left form |
| `KafkaOffsets.TruncatedNegative` | apps/yikv_server/kafka/kafka_import_catchup.cc:30-35 | a negative offset cut after its sign resumes at message 1 and passes message 0; every other cut resumes at the beginning |
| `KafkaOffsets.LeadingSpace` | apps/yikv_server/kafka/kafka_source.cc:53-60 | white space in front of the number does not matter |
| `KafkaSource.ApplyPayload` | apps/yikv_server/kafka/kafka_source.cc:142-164 | objects of a batch are applied in order, non-objects skipped, an exception ends the payload |
| `KafkaSource.StepSafe` | apps/yikv_server/kafka/kafka_source.cc:119-179 | every step, crashes and saves that fail before or after the file was truncated included, keeps the resume point at or before the processed messages |
| `KafkaSource.AtLeastOnceInOrder` | apps/yikv_server/kafka/kafka_source.cc:53-179 | in every run with crashes at any step and failing saves, from wherever the first offset file resumes: messages are first processed in order and everything between that point and the present resume point was processed |
| `KafkaSource.AtMostOneRepeated` | apps/yikv_server/kafka/kafka_source.cc:62-69 | if every save succeeds a restart repeats at most one message |
| `KafkaConvergence.ConsumerConverges` | apps/yikv_server/kafka/kafka_source.cc:119-179 | a consumer that resumed at any message over any index, crashes and repeats, does not resume before that message and reaches the end of the topic, leaves the index with every payload from there on applied once |
| `KafkaConvergence.HandoffConverges` | apps/yikv_server/kafka/kafka_source.cc:53-60 | the same for a consumer that takes over by its offset file from a catch-up that started at any message over any snapshot |
| `KafkaConvergence.RewindIsHarmless` | apps/yikv_server/kafka/kafka_import_catchup.cc:97-128 | a snapshot that holds the topic up to k, caught up from an earlier message to a later one, is the topic up to there applied once |
| `KafkaConvergence.SnapshotConsumerConverges` | apps/yikv_server/kafka/kafka_source.cc:53-179 | over such a snapshot the consumer ends with the topic applied once, wherever cuts make it resume |
| `KafkaCut.CutBeforeFirst` | apps/yikv_server/kafka/kafka_source.cc:53-69 | what a cut that resumes before the start point does to a snapshot made elsewhere, in every run: the payloads from there on are applied over the index of the crash, and every row that the later messages restore ends as without the cut |
| `KafkaCut.CutHappens` | apps/yikv_server/kafka/kafka_source.cc:62-69 | from any first start there is a run that crashes after any character of any offset, resumes where they say and reads to the end |
| `KafkaCut.CutIsHarmlessIff` | apps/yikv_server/kafka/kafka_source.cc:53-69 | exactly which rows end as without the cut for every snapshot, from the messages alone: deleted later, or every field fixed in between is fixed later and an absent row ends the same |
| `KafkaCut.UntouchedCutIff` | apps/yikv_server/kafka/kafka_source.cc:53-69 | a row that no later message touches survives the cut iff none in between touches it |
| `KafkaCut.CutShows` | apps/yikv_server/kafka/kafka_source.cc:62-69 | a witness: a snapshot taken at message 5, a crash after one digit of offset 10, a row that shows it |
| `KafkaCut.NeverSaving` | apps/yikv_server/kafka/kafka_source.cc:62-69 | failing saves do not stop a consumer: a run that never saves reaches the end of the topic |
| `KafkaUnsteady.SteadyIff` | apps/yikv_server/stream/json_stream_ingest.cc:232-245 | a message is steady iff whether it throws does not depend on the index |
| `KafkaUnsteady.UnsteadyObject` | apps/yikv_server/stream/json_stream_ingest.cc:236-242 | an INSERT that cannot be converted throws exactly while its key is absent, and never changes the index |
| `KafkaUnsteady.UnsteadyPayload` | apps/yikv_server/kafka/kafka_source.cc:142-164 | for every batch: if the key of its first unsteady INSERT is absent the payload ends there, if it is present the rest is applied |
| `KafkaUnsteady.RedeliveryAfterThrow` | apps/yikv_server/kafka/kafka_source.cc:142-164 | what a redelivered batch whose INSERT threw does: nothing if the key is still absent, else the skipped items are applied |
| `KafkaUnsteady.RedeliveryAfterRefusal` | apps/yikv_server/kafka/kafka_source.cc:142-164 | what one whose INSERT was refused does: nothing if the key is still present, else only the items in front are repeated |
| `KafkaUnsteady.SkippedRowAppears` | apps/yikv_server/kafka/kafka_source.cc:142-164 | a row that only the skipped items create, and no later message deletes, appears with the redelivery |
| `KafkaRedelivery.RedeliverySafeIff` | apps/yikv_server/kafka/kafka_source.cc:142-164 | a batch with an unsteady INSERT may be delivered again, for every index and all later messages, iff the items in front write or delete the INSERT's row, or the items behind leave that row alone and do nothing to any other row that those in front have not done |
| `KafkaRedelivery.DisjointSafeIff` | apps/yikv_server/kafka/kafka_source.cc:142-164 | if front and rest share no row and neither touches the INSERT's, it may iff the rest touches nothing |
| `KafkaRedelivery.DecidedIsSafe` | apps/yikv_server/kafka/kafka_source.cc:142-164 | if the items in front write or delete the INSERT's row it always may |
| `KafkaRedelivery.UnsteadyInsert` | apps/yikv_server/stream/json_stream_ingest.cc:236-242 | a witness: an ill-typed INSERT followed by an upsert of another key may not be delivered again |
| `KafkaShared.TogetherAtLeastOnce` | apps/yikv_server/table_registry.cc:86-111 | the old and the new consumer of a table, saving to one file in any interleaving: everything below the resume point was processed by one of them, and each processed exactly its own stretch |
| `KafkaShared.AloneIff` | apps/yikv_server/kafka/kafka_source.cc:53-69 | one of them alone processed everything from its start to the resume point iff that point is not beyond where it got |
| `KafkaShared.OldRunsAhead` | apps/yikv_server/kafka/kafka_source.cc:53-69 | a witness: the file resumes beyond what the new consumer did |
| `KafkaShared.TornSave` | apps/yikv_server/kafka/kafka_source.cc:62-69 | a save that arrived in pieces over another one can read as a number nobody saved |
| `KafkaShared.GoesOnUnsaved` | apps/yikv_server/kafka/kafka_source.cc:62-69 | a consumer that cannot save goes on with the next message |
| `KafkaCatchup.RunKafkaImportCatchup` | apps/yikv_server/kafka/kafka_import_catchup.cc:125-245 | the messages from the start point up to the saved offset are applied once each and in order and the live consumer resumes with the next one; the loop goes on exactly until enough silent polls without a message followed an end of the partition, a poll failed, the broker was idle for too long or the clock ran out, and saves in the first and last case only |
| `KafkaCatchup.EverythingAppliedIff` | apps/yikv_server/kafka/kafka_import_catchup.cc:155-187 | a catch-up that ends by itself has applied every message iff it had no reason to stop while there was one to come |
| `KafkaCatchup.SilenceEndsEarly` | apps/yikv_server/kafka/kafka_import_catchup.cc:155-187 | a witness: silence between two messages ends the catch-up although an end of the partition follows each message |
| `KafkaCatchup.CatchUpAndHandOver` | apps/yikv_server/kafka/kafka_import_catchup.cc:97-245 | for every start the broker answers: the live consumer that takes over ends with the snapshot and every message from the start point on applied once, or with the topic applied once if the snapshot holds it up to a point the catch-up passed |
| `KafkaCatchup.SavedResume` | apps/yikv_server/kafka/kafka_import_catchup.cc:125-155 | for every start offset, negative ones included, the saved offset resumes right after the last applied message or at the start |
| `RowCodec.ApplyRowToDoc` | apps/yikv_server/db/handlers.cc:56-121 | the loop computes the entry-wise application and refuses unknown ids and mismatched types |
| `RowCodec.RowRoundTrip` | apps/yikv_server/db/handlers.cc:139-225 | applying a built row to a fresh document succeeds iff the schema has no arrays of Bool or Bytes, and then gives the document back |
| `RowCodec.HandlePutBatch` | apps/yikv_server/db/handlers.cc:331-379 | nothing changes if any row is refused or the batch is empty; otherwise all rows are handed over in order |
| `RowCodec.HandleBatchGet` | apps/yikv_server/db/handlers.cc:383-417 | one row per key, in order, each the one a single get answers |
| `RowCodec.LastOfBatchWins` | apps/yikv_server/db/handlers.cc:371-374 | the last document of a batch with a key is what the key holds |
| `RowCodec.PkIsStoredKey` | apps/yikv_server/db/handlers.cc:123-135 | a row not refused for its key is stored under exactly that key |
| `RowCodec.BatchTouchesOnly` | apps/yikv_server/db/handlers.cc:371-374 | a batch touches no key but those of its documents |
| `RowCodec.StagedIsTyped` | apps/yikv_server/db/handlers.cc:56-121 | every document an accepted row makes has a value of its type in every field |
| `RowCodec.PutThenGet` | apps/yikv_server/db/handlers.cc:331-417 | the row got under the key of an accepted row decodes to the document that row made |
| `RowCodec.RowRefusedIff` | apps/yikv_server/db/handlers.cc:56-121 | a row is refused iff one of its values is for an unknown field or not of its field's type |
| `RowCodec.RowMeans` | apps/yikv_server/db/handlers.cc:56-121 | what a field holds after an accepted row: the values for it act in order, values for other fields do not touch it |
| `RowCodec.KeyOfDocIs` | apps/yikv_server/db/handlers.cc:123-135 | a document has a key iff its pk is a Bool, an integer or a non-empty string, and the key is its numeral or text |
| `RowCodec.NoPkNoKey` | apps/yikv_server/db/handlers.cc:123-135 | without a field of the pk's name no document has a key |
| `RowCodec.NothingElseIsSent` | apps/yikv_server/db/handlers.cc:139-214 | a built value carries nothing but the member of its type |
| `FlatRecords.RecordReads` | deps/include/flatbuffers/table.h:45-56 | every member of a table, number, string, vector of numbers or of strings, reads back through the accessors, whatever else the buffer holds |
| `FlatRecords.RowReads` | proto/yikv_server.fbs:37-39 | the tables of a vector of tables are found in order and each of their members reads back |
| `FlatRows.RowOverBytes` | proto/yikv_server.fbs:19-39 | a row of field values written among any other objects is read back from the bytes, value by value |
| `FlatRows.NamesOverBytes` | proto/yikv_server.fbs:19-39 | every field value carries the name it was written with |
| `FlatRows.RowWithoutValues` | proto/yikv_server.fbs:35-39 | a table given no field values reads as a row without any |
| `FlatMessages.MessageRowReads` | gen/yikv_server_generated.h:511-523 | a row is reached from the root of any finished message through the message's table, and reads as written |
| `FlatMessages.MessageTextReads` | gen/yikv_server_generated.h:584-592 | a string of a message is reached from its root |
| `FlatMessages.GetOverBytes` | apps/yikv_server/db/handlers.cc:250-287 | from the root of a Get response a client reads found, the time, the empty error text, the field names and the row built from the document, and that row applied to a new document gives the document back |
| `FlatMessages.PutOverBytes` | apps/yikv_server/db/handlers.cc:291-328 | from the root of a Put request the server reads the table's name, the field names and the row the client wrote |
| `FlatMessages.StagedFits` | apps/yikv_server/db/handlers.cc:56-121 | whatever values came over the wire, the document they make can be sent back |
| `FlatMessages.PutThenGetOverBytes` | apps/yikv_server/db/handlers.cc:250-328 | request bytes, table name, document stored, response bytes, row read: the document comes back |
| `Protobuf.EncodeVarint` | tools/yikv_db_sample.py:79-85 | the masking and shifting loop writes the base-128 digits with continuation bits |
| `Protobuf.DecodeVarint` | tools/yikv_db_sample.py:88-98 | the accumulating loop computes the number and the end position, or reports truncation |
| `Protobuf.VarintRoundTrip` | tools/yikv_db_sample.py:79-98 | decoding finds every encoded natural and its exact end, whatever surrounds it |
| `Protobuf.Unwrap` | tools/yikv_db_sample.py:106-128 | the loop computes the last field-1 payload seen, with Python's clamped slices |
| `Protobuf.UnwrapWrap` | tools/yikv_db_sample.py:100-128 | unwrap(wrap(x)) == x for every byte string |
| `Protobuf.UnwrapSerialized` | tools/yikv_db_sample.py:106-128 | every well-formed field sequence of the supported wire types unwraps to its last field-1 payload |

## Left out

- The registry is modelled as a state machine on values, not as classes with locks: update in place, memory reclamation and lock fairness are not captured; that a drain ends is shown only up to the release of the handles.
- `TableRegistry::ForEach`, metrics and the destructor: reads outside the handle discipline and easy members.
- Single-writer between RPC puts and the Kafka consumer: the consumer does not take `write_mu`, so no such claim is made.
- Floating-point values are opaque: bit patterns in FlatBuffers and FlexBuffers, reals in documents; -0.0 equal to a 0.0 default, NaN defaults and rounding to single precision are not captured.
- FlatBuffers: structs, shared strings, sorted vectors, the 64-bit builder, big-endian machines, the verifier and generated code.
- VectorDownwards.VectorDownward.EnsureSpace: the unused size is not truncated to 32 bits, which matters only for allocations beyond 4 GiB; then the original may grow once more than needed.
- FlexBuffers: indirect numbers, scalar vectors written without the stack, reused values, mutation, the verifier, a minimum width changed between calls, and the flag for repeated map keys; memory is assumed to hold the buffer in 64 bits.
- FlexBuilders.Builder.EndMap: `std::sort` is the function that gives the only ascending arrangement, and the pools are maps from content to position instead of sets ordered by content.
- JSON text, exceptions other than conversion errors, and float-to-integer conversions out of range, which are undefined in the original.
- KafkaRedelivery.RedeliverySafeIff: a second INSERT that cannot be converted behind the first one is not covered.
- Kafka retention, compaction and rebalancing; a start offset beyond the end of the topic appears as a consume error.
- KafkaCatchup.RunKafkaImportCatchup: the wall clock is a number of polls; of the meta file only whether it could be written is modelled.
- KafkaShared.TogetherAtLeastOnce: a save is written in one piece, as the stream's buffer is flushed once; whether the two indexes of one directory share their pages is up to the engine.
- S3 transport, `--force-refresh`, allocation of build ids by time stamp, a leftover `active.tmp` after a crash, and pulls killed half-way.
- RPC adapters, admin socket, configuration, MySQL source, Arrow import, benchmarks: plumbing.
