# Verification of the Undermoon operator

A Dafny model of the Undermoon operator for Kubernetes, of its consistency checker and of its
scheduler plugin, with proofs. `dafny verify dfyconfig.toml` checks everything.

## What is modelled

**The reconcile and scaling protocol** (`Scaling`, `SlotSafety`, `PassOrder`, `ScaleDownDelay`,
`RollingOrder`, `Convergence`, `PassRuns`, `Cooperation`, `Witnesses`, `RegistryCut`, `Reconciler`). One pass of
`Reconcile` is a sequence of API calls with early exits. `Scaling` is a state machine with one step
for each call and one for each thing that can happen in between: user edits, slot migration, pods
and endpoints coming and going, status reports, the clock, a restart. Any call may fail, with or
without having taken effect. `Step` is total, so a result about all runs is a result about every
interleaving. A pass reads the templates, pod counts and revisions of all three StatefulSets into
copies of its own, and decides on those. How templates are made and found out of date is a parameter
of the world, `rules`; with `OperatorRules` it is what module `Templates` says of the operator's
own. `Witnesses` has concrete runs for what the protocol does not promise, next to the exact
conditions. `Reconciler` holds the operator's own methods in imperative form, on objects with
fields, and proves that whatever they do, with any interference before each call, is a run of the
machine.

**The metadata store** (`MetaStore`, `MetaServer`). Brokers put their metadata into a ConfigMap that
is updated under its ResourceVersion. Any number of requests are under way at once and may read
old versions. `MetaServer` holds the methods that serve one request.

**The consistency checker** (`Text`, `Crc16`, `HashTags`, `SlotTags`, `ShadowMap`, `KvChecker`,
`RingBuffer`, `ClusterClient`). The chain is: the table-driven CRC is CRC-16/XMODEM; the tag in braces
decides a key's slot; the tag table has a tag for every slot; so every generated key lies in the
bucket of its own slot; so the shadow map and a cluster that behaves as one map stay in agreement.
The rule for tags is the section "Hash tags" of the Redis Cluster Specification, and the CRC is
the one of its "Appendix A: CRC16 reference implementation in ANSI C".

**Placement** (`Names`, `Placement`). The scheduler's filter and the names it takes pod ordinals from.

**Masters, registry and templates** (`Masters`, `Registry`, `EnvVars`, `Templates`, `Int32`). How the
operator picks and announces the master broker, keeps the proxy registry, and decides that a
template is out of date.

## Assumptions

- The broker is abstract. A successful `scaleNodes` or `createCluster` sets the target, and
  migration moves the number of nodes with slots between where it is and the target.
- Only the operator writes the replicas of the storage StatefulSet and the status of the custom
  resource. It reads a StatefulSet no older than its own last write; a status report may be old.
- The StatefulSet controller starts only pods whose ordinal is below the replicas, counts in
  `currentReplicas` only such pods, and every endpoint belongs to an existing pod.
- One pass at a time (`MaxConcurrentReconciles: 1`). The clock does not run backwards.
- For convergence only: calls succeed and reads are current, between the calls of a pass nothing is
  undone, between passes slots move, disorder shrinks and at least a second goes by
  (`AlwaysCooperative`), and however late there is another pass during which no status report comes
  in (`Fair`). `CooperationIsPossible` says that this can be met.
- The API server stores a template as it is sent. If it filled in defaults that a comparison looks
  at, a spec with consistent lists could find its own template out of date for ever.
- JSON, compression and base64 are lossless and do not fail. If encoding did fail,
  `updateExternalStore` would report success without writing.
- Endpoints of the brokers have different hostnames. Strings are sequences of bytes, one character each.
- The scheduler's filter and the binding that follows are one step; the plugin has no lock of its own.

## What the proofs brought to light

- The status patch of `reconcileMaster` decodes the server's answer into the same object, so
  the pass may go on with a newer spec than the one `createStorage` compared with the replicas.
  From the patch to the end of the pass that comparison covers the pass exactly if the chunk number
  stored at the patch fits the replicas (`GuardCoversExactly`), and it need not (`GuardDoesNotCover`
  has the run). A pass that is not covered never gets past the readiness gate, which compares the
  StatefulSet the pass has read with what it reports. On this gate safety rests, together with the
  ResourceVersion check on the write that lowers the replicas.
- The stored time stamp of a scale-down has no fraction of a second. A decrease can come less than
  30 seconds after the wait was written exactly if it was not written on a whole second
  (`FullWaitExactly`); `DelayIsTight` meets the bound of `DecreaseIsDelayed` for every time.
- The wait counts from the stored stamp, which can be that of an earlier request that was
  cancelled. While a wait is stored, a request adds nothing to it: a decrease can follow at any
  moment, but none before that wait is over (`StoredWaitDecides`). It can follow before the
  request's own wait would be over exactly if the stored one was written in an earlier second
  (`RequestWaitsExactly`), and at once exactly if the stored one is over
  (`RepeatedRequestNeedNotWait`). Without a stored wait, or with one of that very second, a request
  always waits for itself (`FreshRequestWaits`).
- A list of environment variables that gives one name two different entries is never satisfied by
  any template. With such a list no pass of any run returns without requeue
  (`ContradictionNeverRests`), and the operator converges exactly when there is none
  (`OperatorConvergesExactly`).
- Variables taken out of the lists are noticed exactly if an entry that is left was overruled before
  by a later one of its name (`DroppedVariablesExactly`, with `OverruledVariableIsNoticed` for A=1,
  A=2 cut to A=1). From lists without a contradiction they can all be taken out unnoticed.
- An edit that changes only `migrationLimit` or `disableFailover` is never noticed (`BrokerNotices`,
  `CoordinatorNotices`); for the migration limit the source says that this is wanted.
- The master broker stays through any number of rounds over at least two brokers that reach it
  (`MasterStays`). But a single endpoint is enough for a pass to go on, and a round over the master
  alone takes away the replicas by which it is known (`MasterSurvivesExactly`); the next election
  can then fall on the other broker, although the first was always reached (`LoneMasterIsLost`).
- `Key` of the Go checker and `gen_tag_key` of the Python one differ exactly on keys whose first
  `{` is followed at once by `}`. The Go form follows the specification.
- A pod ordinal is read back from a pod name exactly when it is not negative and fits 64 bits.
- The two widths in which the replica number is computed agree everywhere, and are exact exactly
  below 2^30 chunks.

## Model

| member | source | states |
|---|---|---|
| SlotSafety.SlotSafety | controllers/undermoon_controller.go:105-193 | over every run, the broker's target and the nodes with slots never exceed two for each replica, so no pod is removed while its nodes hold slots or are to receive them |
| SlotSafety.StepKeepsInv | controllers/undermoon_controller.go:78-204 | every call, failure, restart and environment action keeps the inductive invariant of the protocol |
| SlotSafety.GateIsSound | controllers/storage_controller.go:256-275 | past the readiness gate no pod beyond the replicas exists, and the replicas suffice for the pass's chunk number, however old the status report |
| SlotSafety.ReplicasFallOnlyInScaleDown | controllers/storage_controller.go:154-179 | any step of any run that lowers the replicas is the scale-down write, sets them to exactly the size the pass asked for, and finds target and slots exactly there |
| SlotSafety.RollingUpdateKeepsReplicas | controllers/storage_controller.go:321-331 | when the storage template is rolled, the replica number in the new Spec is the one already there |
| SlotSafety.RegistryCutFitsTarget | controllers/undermoon_controller.go:161-177 | when the registry is cut down to the spec's addresses, the broker's target is exactly two nodes for each of them |
| RegistryCut.CutKeepsWantedPods | controllers/undermoon_controller.go:161-177 | in every run, a registry within the spec at the second synchronisation holds only addresses of wanted pods, and the target has two nodes for each |
| RegistryCut.SynchroniseAgain | controllers/undermoon_controller.go:161-177 | the second synchronisation at its place in a run: nothing is added, no entry of the spec is lost whatever fails, and without failures only wanted pods are left |
| PassOrder.CallsInOrder | controllers/undermoon_controller.go:78-204 | in every run, whatever call a pass is about to make, every mandatory call before it was made in the same pass, came back without an error, and its check was met at that moment, in numbers: one ready broker and coordinator with one endpoint each, two endpoints for each chunk, a stable and idle cluster, four nodes with slots for each chunk, two ready and counted pods behind each roll |
| PassOrder.CallsInTurn | controllers/undermoon_controller.go:78-204 | any two mandatory calls behind a pass were made in the order of the source |
| PassOrder.MasterNeedsOneOfEach | controllers/undermoon_controller.go:111-121 | the master is chosen only in a pass that has seen one broker and one coordinator ready and counted one endpoint of each |
| PassOrder.DoneMadeAllCalls | controllers/undermoon_controller.go:78-204 | a pass returns without requeue only after all mandatory calls, none of which failed |
| PassOrder.ConditionalCalls | controllers/storage_controller.go:63-72 | pods are added only when there are too few, a cluster is created only when none was found, free nodes are removed for a retry only when found, a wait is requested only when the size is too large and none is stored, the size is lowered only when one is stored and 30 seconds old |
| PassOrder.WritesHitTheNewest | controllers/storage_controller.go:321-343 | whatever step changes a StatefulSet or the status, the version it replaces is the one the pass has read |
| PassOrder.VersionsGrow | controllers/broker_controller.go:186-198 | every change of the custom resource is a new version of it |
| PassOrder.PatchShowsElected | controllers/broker_controller.go:186-198 | after the status patch the elected master is shown, in a new version exactly if another one was shown, and the pass goes on with that version |
| ScaleDownDelay.DecreaseIsDelayed | controllers/storage_controller.go:159-206 | every decrease of every run goes back to one write of ScaleDownWait that named the stored version and was stored, which nothing has replaced since, and comes 30 seconds after it less the fraction of a second its stamp has lost |
| ScaleDownDelay.WaitHasOrigin | controllers/storage_controller.go:184-206 | a stored ScaleDownWait always comes from one write of the scale-down that met no conflict, and nothing has replaced it since |
| ScaleDownDelay.DecreaseEndsTheWait | controllers/storage_controller.go:172-181 | after a decrease the pass makes no other call before it has stored that the size is stable again, so a stored wait serves no further decrease of a pass that goes on |
| Witnesses.GuardCoversExactly | controllers/storage_controller.go:63-72 | the comparison of createStorage holds until the status patch; from there to the end of the pass, at every moment, it covers the pass exactly if the chunk number stored at the patch fitted the replicas, as it did when nobody had written in between; an uncovered pass never gets past the readiness gate |
| Witnesses.GuardDoesNotCover | controllers/broker_controller.go:186-198 | a run from a new resource in which an edit before the patch leaves the pass with more shards than pods |
| Witnesses.DelayIsTight | controllers/storage_controller.go:159-172 | for every time at which the wait is written there is a run with a decrease at the very bound of DecreaseIsDelayed |
| Witnesses.FullWaitExactly | controllers/storage_controller.go:167-170 | a decrease less than 30 seconds after the write is possible exactly if the write is not on a whole second |
| Witnesses.FreshRequestWaits | controllers/storage_controller.go:159-170 | no decrease comes within 30 seconds, less the lost fraction, of a moment at which no ScaleDownWait was stored, or one stamped in that second |
| Witnesses.RequestWaitsExactly | controllers/storage_controller.go:160-170 | after a request made while a wait is stored, a decrease can come before the request's own wait would be over exactly if the stored wait was written in an earlier second |
| Witnesses.StoredWaitDecides | controllers/storage_controller.go:160-172 | after a request made while a wait is stored, the moments at which a decrease can follow are exactly those not before the request and not before the end of the stored wait |
| Witnesses.RepeatedRequestNeedNotWait | controllers/storage_controller.go:167-172 | a decrease can follow in the very moment of a request exactly if the stored wait is over by then |
| RollingOrder.RollsInOrder | controllers/undermoon_controller.go:274-328 | in every run a template write ends the pass; one for the coordinator finds the broker's live template current and comes after the same pass has found it so, read both its pods ready and counted both as endpoints; one for the storage the same for broker and then coordinator |
| RollingOrder.OneTemplateInAPass | controllers/undermoon_controller.go:274-328 | between any two template writes of a run a pass has ended and another has begun with a new read of the custom resource |
| RollingOrder.DoneIsCurrent | controllers/undermoon_controller.go:274-328 | a pass that returns without requeue leaves all three live templates current, the pods of broker and coordinator ready, and exactly the storage replicas of its spec |
| RollingOrder.DoneRunsTheSpec | controllers/undermoon_controller.go:274-328 | with the operator's own templates, when a pass returns without requeue all three live templates carry the images, pull policy, resources and variables of its spec, and the storage its maximal memory, redirection and threads |
| RollingOrder.RunKeepsTemplatesMade | controllers/storage_controller.go:107-140 | in every run each live template was made by the rule of its own component |
| RollingOrder.ContradictionNeverRests | controllers/undermoon_controller.go:274-283 | with the operator's own templates no pass of any run returns without requeue while a variable list of its spec contradicts itself |
| Convergence.Converges | controllers/undermoon_controller.go:105-203 | from every state of the protocol, with the spec fixed and finding its own templates current, and an environment that cooperates between passes, is harmless between calls and spares some later pass its reports, some pass returns without requeue with replicas, pods, endpoints, target, slots and nodes exactly as the spec asks and all templates current |
| Convergence.ConvergesExactly | controllers/undermoon_controller.go:105-203 | under every cooperative and fair environment the cluster settles if and only if the spec finds its own templates current |
| Convergence.OperatorConvergesExactly | controllers/undermoon_controller.go:105-328 | with the operator's own templates it settles if and only if none of the four variable lists contradicts itself |
| Convergence.SettledRunsTheSpec | controllers/undermoon_controller.go:274-328 | in a settled cluster all three components run what the spec asks for |
| Convergence.PassProgress | controllers/undermoon_controller.go:105-203 | whatever harmless actions fall between its calls, reports included, a pass never adds to the work left; without reports it lowers it, or is held up by something only the environment can bring forward, or is done |
| Convergence.SettledStays | controllers/undermoon_controller.go:187-203 | a settled cluster is still settled after the next pass and the stretch after it, whatever is reported; without reports that pass returns without requeue |
| Convergence.SettledExactly | controllers/undermoon_controller.go:187-203 | a cluster is as the spec wants it exactly when every part of the measure is zero |
| PassRuns.PassIsRun | controllers/undermoon_controller.go:78-204 | the passes of the convergence result, with everything that happens between their calls, are runs of the machine whose runs are safe |
| Cooperation.CooperationIsPossible | controllers/undermoon_controller.go:152-159 | there is an environment that always cooperates and is fair, so convergence is not promised for nothing |
| Reconciler.Operator.Operate | controllers/undermoon_controller.go:331-337 | any number of passes of the imperative code, one after the other and with any interference, keeps the slots on kept pods at every moment |
| Reconciler.Operator.Reconcile | controllers/undermoon_controller.go:78-204 | one pass extends a run of the machine; it returns done exactly when the resource is gone, and then the pass has made no call and only the environment has acted, or when it came to the end of all steps; it returns an error only if a call has failed, and asks for another pass otherwise |
| Reconciler.Operator.CreateStorage | controllers/storage_controller.go:36-75 | refines the load and scale-up steps, with the guard that only ever raises the replicas |
| Reconciler.Operator.ScaleDownStorageStatefulSet | controllers/storage_controller.go:142-182 | refines the decision, wait, shrink and stable steps |
| Reconciler.Operator.SetScaleState | controllers/storage_controller.go:184-206 | refines the status write, field updates and ResourceVersion check included |
| Reconciler.Operator.ChangeNodeNumber | controllers/meta_controller.go:220-260 | refines scaleNodes and removeFreeNodes, with free nodes found remembered as a retry |
| Reconciler.Operator.TriggerRollingUpdate | controllers/undermoon_controller.go:274-328 | refines the three rolling steps: each template is compared with the spec, replaced under the version check, or else its ready pods and endpoints counted |
| Reconciler.Operator.RollBrokerTemplate | controllers/broker_controller.go:144-151 | goes on to the coordinator only with the copy current, both pods ready in it and two endpoints there when it looked; every other outcome ends the pass |
| Reconciler.Operator.ReplaceStorageSpec | controllers/storage_controller.go:321-343 | replaces the whole Spec, replica number included, against the newest version only; any outcome ends the pass |
| Reconciler.Operator.BrokerAndCoordinatorReady | controllers/undermoon_controller.go:250-272 | lets the pass on only with one broker and one coordinator ready in its copies, and one endpoint of each there when it looked |
| MetaStore.NoLostUpdate | controllers/meta_controller.go:386-425 | in every interleaving, a write that named a version replaced exactly the revision carrying it |
| MetaStore.OneWritePerVersion | controllers/meta_controller.go:386-425 | no two writes replace the same version, however stale the reads |
| MetaStore.ReportsAreTrue | controllers/meta_controller.go:363-425 | success under a version means written, conflict means not written, and success without a version means written or already initialised |
| MetaStore.WriteSucceeds | controllers/meta_controller.go:363-425 | a request that names the newest version, or none on an empty store, whose reads return the newest revision and whose write comes back, succeeds with its third step, whatever other requests do that do not write; the history is then longer by exactly its store |
| MetaStore.ConflictHasReason | controllers/meta_controller.go:386-425 | in every run a conflict is reported only to a request that has read another version than it insisted on, or a revision that was no longer the newest when it wrote |
| MetaStore.ErrorHasReason | controllers/meta_controller.go:363-425 | in every run an error is reported only if a call has failed or the key is gone |
| MetaStore.InitReplacesEmptyStore | controllers/meta_controller.go:371-384 | a write without a version only ever replaces an empty store |
| MetaStore.InitialisedAtMostOnce | controllers/meta_controller.go:371-384 | while versioned writes are non-empty, a store once filled stays filled and is never initialised again |
| MetaServer.Service.HandleUpdateMeta | controllers/meta_controller.go:363-425 | success under a version: the store stands in the history on top of that version; success without one: written or already initialised; conflict: it is nowhere, and its read was of another version or a newer revision stood before its write; failure: a call has failed or the key is gone; so without such a reason the answer is success |
| MetaServer.Service.UpdateExternalStore | controllers/meta_controller.go:386-425 | the imperative update, with its own reads, pre-check and phases, makes exactly the protocol's steps and returns what the protocol records |
| MetaServer.Service.UpdateConfigMap | controllers/meta_controller.go:413-425 | comparing ResourceVersions accepts exactly the writes on the newest revision, and the history then is the protocol's |
| MetaServer.Service.InitExternalStore | controllers/meta_controller.go:371-384 | the imperative initialisation makes the protocol's steps: already initialised is success, an empty store is replaced under the version it was read with |
| Crc16.TableIsShift | checker/pkg/slot.go:14-47 | each of the 256 entries is eight shift steps of its index with polynomial 0x1021 |
| Crc16.StepAgrees | checker/pkg/slot.go:69-74 | the byte step with the table is eight bit steps, for every register and byte |
| Crc16.Crc16Sum | checker/pkg/slot.go:69-74 | the loop computes the bitwise CRC-16/XMODEM of every byte string |
| Crc16.CrcOfConcatenation | checker/pkg/slot.go:69-74 | the CRC of a concatenation continues where the first part ended |
| Crc16.CheckValue | checker/pkg/slot.go:69-74 | the check value 0x31c3 of the algorithm for the digits 1 to 9 |
| HashTags.KeyMeetsTheRule | checker/pkg/slot.go:50-57 | on every string Key returns the tag of the specification if there is one and the whole key otherwise |
| HashTags.GenTagKey | chaostest/cluster_client.py:126-140 | the two loops of the Python checker compute Tagged |
| HashTags.CheckersAgree | chaostest/cluster_client.py:126-140 | both checkers extract the same text exactly when the first opening brace is not followed at once by a closing one |
| HashTags.Slot | checker/pkg/slot.go:61-67 | for whatever part of the key the rule hashes, the slot is the bitwise CRC of the bytes of that part, modulo 16384 |
| HashTags.SlotMeetsTheRule | checker/pkg/slot.go:50-67 | the same of the slot that all other results speak of |
| HashTags.TagDecidesSlot | checker/pkg/slot.go:50-67 | a key with a tag in its first braces has the slot of the tag |
| SlotTags.NewSlotTags | checker/pkg/utils.go:57-75 | the search ends exactly when the draws hit all 16384 slots, and then every slot has a tag hashing to it |
| SlotTags.GeneratedKeysHitTheirSlot | checker/pkg/kv.go:69-72 | every generated key has the slot of its tag |
| SlotTags.LuaKeysShareASlot | checker/pkg/kv.go:74-77 | all Lua keys of all checkers lie in one slot |
| SlotTags.GenKeyInjective | checker/pkg/kv.go:69-72 | a generated key determines time, checker, slot, number and tag |
| SlotTags.LuaKeysAreApart | checker/pkg/kv.go:69-77 | no generated key is a Lua key |
| SlotTags.GenKeyForm | checker/pkg/kv.go:69-72 | the key in full, part by part |
| SlotTags.GenLuaKeyForm | checker/pkg/kv.go:74-77 | the Lua key in full |
| ShadowMap.BucketSize | checker/pkg/kv.go:39-46 | the eight keys made for one slot are different |
| ShadowMap.FilledBuckets | checker/pkg/kv.go:33-46 | after the filling loop every bucket has exactly its eight keys, all hashing to its slot |
| ShadowMap.CheckersAreApart | checker/pkg/kv.go:344-354 | checkers with another id or start time share no key: no generated one, no Lua key, and neither with the other |
| ShadowMap.WritesKeepAgreement | checker/pkg/kv.go:159-168 | equal writes to shadow and cluster keep "absent or stored value = shadow value" |
| ShadowMap.SetInStep | checker/pkg/kv.go:166-167 | a SET remembered in the bucket the key hashes to changes shadow and cluster alike |
| KvChecker.RandomGetKey | checker/pkg/utils.go:23-36 | returns an entry of every non-empty map and never reaches its panic |
| KvChecker.Checker.constructor | checker/pkg/kv.go:33-67 | a new checker has eight keys for each slot and agrees with a cluster that has none of its keys |
| KvChecker.Checker.RandomChooseKeysInSameSlot | checker/pkg/kv.go:121-135 | a copy of entries of one slot, as many as asked for or all eight |
| KvChecker.Checker.RandomChooseKeys | checker/pkg/kv.go:137-149 | one to n entries of the shadow |
| KvChecker.Checker.CheckSet | checker/pkg/kv.go:151-171 | writes up to ten keys with new values, shadow and cluster alike, and keeps the agreement |
| KvChecker.Checker.CheckMSet | checker/pkg/kv.go:173-198 | the same for all keys of one slot with one MSET |
| KvChecker.Checker.CheckDel | checker/pkg/kv.go:263-287 | deletes all keys of one slot, empty values in the shadow, and keeps the agreement |
| KvChecker.Checker.CheckGet | checker/pkg/kv.go:200-223 | well only if the cluster answered and every answer is the remembered value; an inconsistency names a wrong answer; never one on a cluster that is one map |
| KvChecker.Checker.CheckMGet | checker/pkg/kv.go:225-261 | well only if the one reply has the right length and every remembered value; otherwise an error, naming a wrong value of that reply |
| KvChecker.Checker.CompareAll | checker/pkg/kv.go:250-260 | well exactly if all values are right, otherwise the last wrong one is reported |
| KvChecker.Checker.CheckLuaMSet | checker/pkg/kv.go:289-310 | gives all Lua keys one value, remembered only on success |
| KvChecker.Checker.CheckLuaMGet | checker/pkg/kv.go:312-335 | the verdict is decided by the reply: all right, a wrong value named, or, when it is too short, a panic |
| KvChecker.Checker.CheckKeyValue | checker/pkg/kv.go:98-119 | the draw decides the kind of check, each kind has done its work when it is done, and a complaint is made exactly if a reply has just been read that is wrong, short or ill-sized |
| KvChecker.Checker.LoopCheck | checker/pkg/kv.go:84-119 | the run complains exactly if it has read a reply that is not what it remembers, about that reply, which is the last one; a failing call ends it; on a cluster that behaves as one map it never complains |
| RingBuffer.RingBuf.Add | checker/pkg/monitor.go:168-175 | appends to the log, for every capacity, through every wrap-around |
| RingBuffer.RingBuf.Len | checker/pkg/monitor.go:177-182 | the length is the number of items added, at most the capacity less one |
| RingBuffer.RingBuf.Data | checker/pkg/monitor.go:184-197 | the last capacity less one items ever added, in order |
| RingBuffer.AddKeepsWindow | checker/pkg/monitor.go:168-175 | one add turns the window on the last items into the window on the new last items |
| ClusterClient.Exec | checker/pkg/client.go:136-173 | succeeds exactly when a path of MOVED replies leads from the startup node to an answering node within five sends, and returns that node's answer; gives up with the first error that sends it nowhere, or with too many redirections exactly when five nodes have sent it on |
| ClusterClient.MovedSyntax | checker/pkg/client.go:193-206 | an address is taken exactly from errors in which the bytes MOVED occur and which have two spaces, as what follows the second; an error without MOVED comes back as it is, one with another number of spaces is an invalid MOVED |
| ClusterClient.ContainsExactly | checker/pkg/client.go:195-195 | containment is the occurrence of the bytes at some position |
| ClusterClient.SplitIsUnique | checker/pkg/client.go:199-204 | splitting undoes joining |
| Placement.FilterIsExact | scheduler/pkg/plugin.go:40-92 | refuses exactly the nodes with a storage pod of the same namespace, cluster and half ordinal, and errs exactly on unreadable names |
| Placement.NeverTogether | scheduler/pkg/plugin.go:38-92 | over every run of placements and removals no node ever has two storage pods of one shard |
| Placement.ChunkIsSpread | scheduler/pkg/plugin.go:84-89 | pods 2c and 2c+1 of a chunk, as the operator names and labels them, are never on one node |
| Names.PodIndexRoundTrip | scheduler/pkg/plugin.go:94-101 | the scheduler and the operator read the ordinal back from a pod name exactly when it is in 0..2^63-1 |
| Names.GetPodIndexExactly | scheduler/pkg/plugin.go:94-101 | an ordinal is read exactly from names with digits behind the last dash that stand for it and fit 64 bits |
| Names.StorageAddressForm | controllers/storage.go:554-586 | the address of a storage pod in full |
| Names.GenStorageStatefulSetAddrs | controllers/storage.go:588-596 | exactly two addresses for each chunk, all different |
| Names.GenStorageNames | controllers/storage.go:563-570 | the names of the pods in order |
| Names.ExtractUndoesStorageName | controllers/meta.go:81-103 | the storage name is read back exactly when both parts are non-empty and the first has no '@' |
| Names.StorageNameUndoesExtract | controllers/meta.go:90-103 | every accepted storage name is the printed form of what was read |
| Text.ParseUndoesFormat | controllers/storage_controller.go:286-296 | decimal parsing undoes printing exactly on 64-bit integers and clamps beyond |
| Text.DecimalExactly | controllers/storage.go:559-561 | printing gives the decimal digits of the number without leading zeros |
| Text.ParseIntExactly | scheduler/pkg/plugin.go:94-101 | parsing succeeds exactly on an optional sign and digits that stand for a 64-bit integer, with that integer |
| Masters.GetCurrentMaster | controllers/broker_controller.go:200-240 | the only broker with replicas if there is one; otherwise the first of highest epoch among those that answered, or none |
| Masters.ElectMaster | controllers/broker_controller.go:225-239 | the first candidate of the highest epoch among those that answered |
| Masters.ReconcileMaster | controllers/broker_controller.go:153-184 | shows the master in the status and returns it with, in order, all other brokers; without endpoints, or when the patch fails, there is neither |
| Masters.BrokerAddressesDiffer | controllers/broker_controller.go:159-163 | brokers with different hostnames have different addresses |
| Masters.GenBrokerAddressForm | controllers/broker.go:265-279 | the address of a broker in full |
| Masters.OthersExactly | controllers/broker_controller.go:175-181 | the replicas are what stands before the master and what stands behind it |
| Masters.Fleet.SetBrokerReplicas | controllers/meta_controller.go:73-94 | on success the master has the others as replicas and they have none; a failure leaves each broker old or new |
| Masters.MasterIsUnique | controllers/meta_controller.go:73-94 | after a success over at least two brokers exactly the master has a non-empty list |
| Masters.MasterIsStable | controllers/broker_controller.go:200-219 | every later choice among brokers that include the master and reach it falls on it, whatever the epochs |
| Masters.Fleet.AnnounceMaster | controllers/undermoon_controller.go:119-142 | a round as the pass makes it, choice, status and both announcements: whatever fails, each broker has its old list or the one the chosen master gives it, and without failure the latter |
| Masters.RoundMakesMaster | controllers/meta_controller.go:73-94 | a round over at least two brokers that goes through makes its choice the only broker with replicas |
| Masters.MasterStays | controllers/broker_controller.go:153-240 | through any number of rounds, each over at least two brokers with the master among them and reached, whatever fails and whatever the others answer, the same master is chosen and stays the only one with replicas |
| Masters.MasterSurvivesExactly | controllers/meta_controller.go:73-94 | after a round that goes through the master is still the only one with replicas exactly if the round was over at least two brokers; over the master alone no broker has any |
| Masters.LoneMasterIsLost | controllers/broker_controller.go:135-142 | a round over the master alone and one over both brokers after which the other one is master, although the first was reached in both |
| Registry.ReconcileServerProxyRegistry | controllers/meta_controller.go:112-124 | spec addresses and given proxies are never dropped, only given proxies are added, and without failures exactly these remain |
| Registry.RegisterServerProxies | controllers/meta_controller.go:126-137 | entries are only added, and only given proxies; errors other than retry are passed over |
| Registry.DeregisterServerProxies | controllers/meta_controller.go:139-175 | whatever fails, no spec address and no given proxy loses its entry |
| Registry.GetServerProxies | controllers/storage_controller.go:277-300 | one proxy for each endpoint, in order |
| Registry.ProxyOfPod | controllers/storage_controller.go:286-296 | the proxy read off a pod's hostname has the spec's address for that pod, and its ordinal |
| Registry.ProxyForm | controllers/broker_client.go:142-153 | the proxy in full: the spec's port and the Redis ports 7001 and 7002 on the same host |
| Registry.SpecIsSmall | controllers/storage.go:588-596 | a registry within the spec has at most one entry for each pod |
| EnvVars.EnvVarListNeedUpdate | controllers/utils.go:276-292 | true exactly when some new entry is not the last old entry of its name |
| EnvVars.NeedUpdateExactly | controllers/utils.go:276-292 | true exactly when some listed entry does not stand last of its name in the environment |
| EnvVars.UserListSettles | controllers/utils.go:276-292 | a list appended to any built-in entries is current exactly when it does not contradict itself |
| EnvVars.RemovalNoticedExactly | controllers/utils.go:276-292 | entries taken out of a list are noticed exactly if one that is left was overruled by a later one of its name |
| EnvVars.ContradictionNeedsUpdate | controllers/utils.go:276-292 | a list that contradicts itself is out of date against every environment there could be |
| EnvVars.FirstEntryWins | controllers/utils.go:137-144 | getEnvValue returns the first entry of a name, whatever follows |
| EnvVars.AbsentIsEmpty | controllers/utils.go:137-144 | a name without an entry reads as the empty text |
| Templates.BrokerComesToRest | controllers/broker.go:86-258 | a new broker template is current exactly when the user's list does not contradict itself |
| Templates.CoordinatorComesToRest | controllers/coordinator.go:53-182 | the same for the coordinator |
| Templates.StorageComesToRest | controllers/storage.go:105-263 | the same for the storage, with both user lists and the three values read back by name |
| Templates.OperatorRulesRest | controllers/storage.go:462-552 | all three new templates are current exactly when none of the four lists contradicts itself |
| Templates.OperatorRulesAreCoherent | controllers/storage.go:462-552 | a spec that finds any template at all current finds its own current |
| Templates.DroppedVariablesStay | controllers/storage.go:462-552 | from lists that do not contradict themselves any variables can be taken out, and no component is updated |
| Templates.DroppedVariablesExactly | controllers/storage.go:462-552 | cutting down the four lists makes some template out of date exactly if in one of them an entry that is left was overruled by a later one of its name |
| Templates.OverruledVariableIsNoticed | controllers/broker.go:224-258 | with A=1, A=2 in the broker's list, taking out the second is noticed |
| Templates.BrokerStatefulSetChanged | controllers/broker.go:224-258 | the comparisons, made one after the other, find exactly the templates out of date that the protocol's rules do |
| Templates.CoordinatorStatefulSetChanged | controllers/coordinator.go:152-182 | the same for the coordinator |
| Templates.StorageStatefulSetChanged | controllers/storage.go:462-552 | the same for the three containers of the storage |
| Templates.BrokerNotices | controllers/broker.go:86-258 | for any two specs: an edit is noticed exactly if it changes image, pull policy or broker resources, or lists a variable that does not stand last of its name in the environment made before |
| Templates.CoordinatorNotices | controllers/coordinator.go:53-182 | the same for the coordinator |
| Templates.StorageNotices | controllers/storage.go:105-552 | the same for the storage, with both images, both resources, maximal memory, redirection and threads |
| Templates.NewTemplatesRun | controllers/storage.go:105-263 | a new template runs the images, pull policies and resources of its spec |
| Templates.BrokerNamesItsStore | controllers/meta.go:81-103 | the store name a broker is given in its environment is read back by the service as the broker's own resource |
| Templates.ResourceListEqual | controllers/utils.go:219-235 | true exactly for equal resource lists |
| Int32.FormsAgree | controllers/storage_controller.go:64-64 | the guard's replica number is the written one for every uint32 |
| Int32.ReplicasAreExact | controllers/storage_controller.go:154-154 | it is twice the chunk number exactly below 2^30 |

## Left out

- HTTP, Redis and Kubernetes clients, routing, authentication, logging: only the outcome of a call is kept.
- gzip, base64 and JSON: taken as lossless, without errors.
- The insides of broker, coordinator and proxy, real slot migration and failover: an abstract environment.
- Services, affinity, probes, volumes, shell scripts, Helm and kustomize files: data and scripts without a property here.
- The create guards' three attempts and the secret: each is one call of the pass that may fail.
- SlotTags.NewSlotTags: the draws are a given finite sequence; that random draws ever hit all slots is a matter of chance.
- Convergence.Converges: user edits and failing calls may not fall between the calls of a pass, nor anything that adds disorder, such as a wanted pod that stops.
- Reconciler.Operator.TriggerRollingUpdate: the count of the endpoints after a template write is in module Reconciler only; it cannot change that the pass ends.
- Reconciler.Operator.Reconcile: the coordinators' configuration, of which only the last error survives, is one call, and a deleted resource is only an answer to the read: what its deletion removes is not modelled.
- Masters.ReconcileMaster: what brokers answer does not change during one choice; that the patch refreshes the custom resource is in modules Scaling and Reconciler.
- ClusterClient.Exec: without the debug mode, which the checker never turns on.
- KvChecker.Checker.LoopCheck: says nothing about what is found after a call has failed, because the checker stops there; the process that runs three checkers side by side is not part of the model.
- Templates.ResourceListEqual: amounts are integers; quantities with different notations for one amount are equal here as they are there.
- Int32.ReplicasAreExact: chunk numbers from 2^30 on wrap, and the other modules take smaller ones.
- Placement.NeverTogether: filter and binding are one step; two schedulings at once could pass the filter together.
- The MONITOR connection and the Python chaos driver.
