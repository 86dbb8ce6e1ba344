# Kuda: a verified model of the controllers, the webhook and their shared state

Kuda delivers data to the pods of a workload. A `DataSet` holds a template and a pod selector; for each selected pod
the DataSet reconciler keeps one `Data` object; for each `Data` the Data reconciler resets and recounts the status,
creates a role binding, writes the digest of the spec on the pod and keeps a finalizer; the webhook adds the runtime
sidecar, which downloads the items and reports their phases in the status of the `Data`.

## What is proved

**The Data reconciler** (`Protocol`, `ProtocolLimits`, `DataPass`, `PassFrame`, `DataReconciler`). One `Data` and its
pod live in a store with resource versions, finalizers, deletion marks and a status subresource. A pass is a machine of
single API calls that keeps the copies it has read. Between any two calls the others may act: the DataSet reconciler
creates, rewrites and deletes, the runtime reports, pods start, stop and change, role bindings come and go. Any call may
fail, or take effect although the pass sees an error. The code is written out imperatively, on objects edited in place,
and proved to make exactly the calls of that machine.

- In every state of every run, if the pod carries the digest of the spec, the status lists exactly the items of that
  spec, in order (`DigestImpliesAligned`).
- Whenever a `Data` leaves the store, its pod is gone or carries no digest (`DataLeavesNoDigest`), so the first status
  stored for a created or re-created `Data` puts every item in waiting (`FirstStatusIsReset`).
- Two passes that nobody interrupts settle any `Data`, three if others hold it by finalizers (`TwoPassesSettle`,
  `ThreePassesSettle`); the code makes exactly those passes (`ReconcileAlone`). After any run, failures and
  interruptions included, they also leave its items aligned (`RunThenThreePasses`).
- No call touches more of the pod than its digest, more of the `Data` than status and own finalizer, or a `Data` that is
  live or held by others; what a whole pass does is said field by field (`PassFrame`).
- The passes of the DataSet reconciler, cut off anywhere, are runs of the same machine (`Composition`).

Hypotheses, in `Protocol.Allowed` and `Protocol.Initial`: the digest is an injective function; the DataSet reconciler
writes no spec whose digest the pod carries although the items are not that spec's; nobody else takes a `Data` out of
the store, by deleting it without finalizers or by taking the last finalizer off a marked one, while the pod carries a
digest, or the pass is about to write one or to patch the status; the runtime keeps the list of items (it may change
everything else in the status); a pod starts without a digest and only the reconciler changes it. Others may put on and
take off any finalizers of their own. All this is weaker than "no spec value recurs in the life of a `Data`"
(`AlignedIfNoSpecRecurs` derives the theorem from that) and than "no `Data` is deleted before its finalizer is stored".
What is asked of the other writers of specs, marks and
finalizers is exact. At any point of any pass, writing a spec keeps all later states aligned if and only if it is
allowed (`RolloutIsSafeIff`); taking a `Data` out of the store keeps them aligned if and only if whatever digest is on
the pod or on its way is of a spec without items (`RemovalIsSafeIff`, with `EarlyDeleteIsSafeIff` and
`LastFinalizerIsSafeIff` for the two ways of doing it), and moreover lets every later first status be a reset if and
only if it is allowed (`RemovalIsHarmlessIff`).

**The DataSet reconciler** (`Names`, `Sync`, `DataSetReconciler`, `NameIndex`). `Sync.Target` says, name by name, what
a pass makes of the `Data` of a namespace. The imperative pass, which may be cut off before any call, is proved to
reach it, to fail only on names that cannot be handled, and to leave every name in one of three states when it is cut
off. About the target:

- a second pass changes nothing, and a pass after a cut-off one gives the same store and status, both if and only if
  no `Data` of an absent pod without finalizers has the name of a listed pod's `Data` (`RepeatGivesSameIff`,
  `RestartGivesSameIff`). The code fails there because that `Data` is updated and then pruned in one pass, and created
  anew by the next;
- a listed pod has exactly one `Data`, with the template's spec, exactly unless the name was taken by a `Data` of
  another pod; those of absent pods are gone or marked; those of other DataSets are untouched;
- `Data` names decode uniquely even if DataSet names contain dashes, so no pass meets a taken name.

The pass is proved for the index the code intends, one cell for each entry. `NameIndex` has the loop as Go 1.16 runs
it, where all entries share the loop variable: where the intended phase is done, the literal one is done with the same
result exactly if every wanted `Data` but the last listed is up to date and, if a lookup hits at all, the last one's pod
name has a dash and it is wanted or up to date (`LiteralPhase`). Otherwise it writes the wrong `Data`, or panics on a
pod name that was never asked for.

**Both together** (`World`, `Convergence`, `AtRest`, `FaithfulStates`). With pods and templates fixed and no failures,
every pass leaves the namespace alone or lowers a lexicographic measure; hence every order of passes comes to rest, and
every fair one where each selected pod has exactly its `Data`, bound, digested, finalized and counted, and reported by
the DataSets. If moreover the digests told the truth at the start (`AtRest.Faithful`), the items are those of the spec
in the end, and the DataSets count the pods all of whose items have arrived.
Hypotheses, in `World.WellFormed`: each pod is selected by at most one DataSet, the pods of a DataSet have distinct
suffixes, every `Data` is named by the scheme, a marked one has finalizers, no two are for the same existing pod, and no
DataSet but its own selects the pod of a `Data`. Its own may have ceased to: such a `Data` is an orphan like one whose
pod is gone, and goes. Where others hold marked `Data` by their finalizers, those wait, and that is all that is left;
without such finalizers none does. Digests are faithful where every selected pod is in a state that the protocol
reaches, the template may be written there, and no role binding was taken away since (`FaithfulStates`).

**Webhook and deep copies** (`Selector`, `Injector`, `Agreement`, `DeepCopy`). Injection keeps volume references
valid, exactly if they were valid before up to reserved names and no volume has such a name; admission is idempotent
and never adds a second sidecar; an injected pod leads to its DataSet and gets a `Data`. The generated deep copy of a
`Data` is equal and shares no mutable object with the original.

## Where the code differs from what it seems to do

- `updateDataStatus` compares a pointer with a struct, so it always goes on to write
  (`pkg/controllers/data_controller.go:170`); the model always writes.
- `updateRoleBinding` returns the NotFound of the Get after a Create that went well
  (`pkg/controllers/data_controller.go:209-216`); the pass that creates the binding fails, as `WholePassResult` says.
- `createDataResource` returns nil when the name is taken and the caller dereferences it
  (`pkg/controllers/dataset_controller.go:132`); the model crashes there, exactly if `Sync.NamesOk` does not hold.
- A `Data` that is already marked, has lost this finalizer and waits on another one gets its digest written again
  (`pkg/controllers/data_controller.go:125`).

## Model

| member | source | states |
|---|---|---|
| `Names.JoinSplit` | pkg/controllers/dataset_controller.go:326-327 | splitting at a separator and joining again gives the string back |
| `Names.SegmentsHaveNoSeparator` | pkg/controllers/dataset_controller.go:326 | no segment of a split contains the separator |
| `Names.HasSuffixIffDash` | pkg/controllers/dataset_controller.go:326-327 | the slice of the last two segments is in range exactly for pod names with a dash |
| `Names.DataNameIs` | pkg/controllers/dataset_controller.go:325-328 | for a pod name that ends in a-b, with or without a stem before it, the Data name is the DataSet name, a and b, joined by dashes |
| `Names.EndsExist` | pkg/controllers/dataset_controller.go:326-327 | every pod name with a dash has such an ending |
| `Names.DataNamesDecode` | pkg/controllers/dataset_controller.go:325-328 | on plain strings: with pod names that end in a1-b1 and a2-b2, two Data names are equal iff the DataSet names are, a1 = a2 and b1 = b2, dashes in DataSet names included |
| `Numbers.ReadDecimal` | pkg/controllers/data_controller.go:283 | a printed number is its digits without leading zeros and reads back as the number |
| `Numbers.ReadyReads` | pkg/controllers/data_controller.go:283 | the column "ready" has one slash, before it the number done, after it the total |
| `Status.GenDefaultStatus` | pkg/controllers/data_controller.go:244-262 | the loop lists one item for each of the spec's, in order, waiting since now without a message, and counts none as arrived |
| `Status.GenLatestStatus` | pkg/controllers/data_controller.go:264-286 | the loop keeps the items; each counter is the number of items in its own phase, the total that of the spec's items, and "ready" shows success over total |
| `Status.RecountFields` | pkg/controllers/data_controller.go:264-286 | the same of the recount as a function, field by field |
| `Status.DefaultFields` | pkg/controllers/data_controller.go:244-262 | and of the reset |
| `Status.CountFull` | pkg/controllers/data_controller.go:270-281 | a counter equals the number of items iff all of them are in its phase |
| `Status.CountersPartition` | pkg/controllers/data_controller.go:270-281 | the four counters sum to the number of items less those in an unknown phase, so to all of them iff there is none |
| `Status.CountPermutation` | pkg/controllers/data_controller.go:270-281 | permuting the items changes no counter |
| `Status.RecountIgnoresOrder` | pkg/controllers/data_controller.go:264-286 | recounting a permuted status gives the recount with the items permuted |
| `Status.ResetIsRecounted` | pkg/controllers/data_controller.go:244-286 | a reset is a fixpoint of the recount, lists the spec's items and has all of them waiting |
| `Status.PatchOfRecount` | pkg/controllers/data_controller.go:170-182 | the JSON merge patch of a recount (section 2 of RFC 7396) never mentions the item list: merged into whatever is stored, it keeps the stored items; merged into its own base, it gives the recount |
| `Protocol.StepKeepsInv` | pkg/controllers/data_controller.go:64-235 | every call of a pass, failed, lost or served, and every allowed step of the others keeps the protocol's invariant |
| `Protocol.RunKeepsInv` | pkg/controllers/data_controller.go:64-235 | so does every allowed run |
| `Protocol.DigestImpliesAligned` | pkg/controllers/data_controller.go:106-235 | in every state of every run: digest of the spec on the pod implies that the status lists exactly the spec's items in order |
| `Protocol.DataLeavesNoDigest` | pkg/controllers/data_controller.go:81-145 | whichever step takes the Data out of the store, its pod is absent or without digest then |
| `Protocol.FirstStatusIsReset` | pkg/controllers/data_controller.go:164-168 | the first status stored in a Data's life lists its spec's items, all waiting |
| `ProtocolLimits.RolloutIsSafeIff` | pkg/controllers/data_controller.go:164-168 | at any point of any pass, a spec can be written with every later state aligned iff the pod does not carry its digest or the items are that spec's |
| `ProtocolLimits.NoRecurrenceIsAllowed` | pkg/controllers/data_controller.go:164-168 | if no spec recurs, the DataSet reconciler writes only what it may |
| `ProtocolLimits.AlignedIfNoSpecRecurs` | pkg/controllers/data_controller.go:106-235 | alignment in every state of every run in which no spec value recurs in one Data's life |
| `ProtocolLimits.EarlyDeleteIsSafeIff` | pkg/controllers/data_controller.go:125-152 | at any point of any pass, deleting a Data whose finalizer is not stored keeps every later state aligned iff the digest on the pod, and the one the pass is about to write, are of specs without items |
| `ProtocolLimits.LastFinalizerIsSafeIff` | pkg/controllers/data_controller.go:125-145 | the same for the last finalizer of others on a marked Data that has lost the reconciler's |
| `ProtocolLimits.RemovalIsSafeIff` | pkg/controllers/data_controller.go:81-152 | the same for every way in which somebody else takes a Data out of the store |
| `ProtocolLimits.RemovalIsHarmlessIff` | pkg/controllers/data_controller.go:81-182 | such a removal keeps later states aligned and later first statuses resets iff there is no such digest at all and no pass is about to patch; that is exactly when it is allowed |
| `ProtocolLimits.WriteBackBreaksAlignment` | pkg/controllers/data_controller.go:115-128 | a pass cut off between reset and digest, and the old spec written back: digest and items disagree |
| `ProtocolLimits.ForeignFinalizerLeavesDigest` | pkg/controllers/data_controller.go:125-145 | a marked Data that waits on another finalizer leaves its digest on the pod, and a re-created one is then taken as reset |
| `DataPass.WholePassResult` | pkg/controllers/data_controller.go:64-155 | the calls of an uninterrupted pass come to one closed result: status, binding, digest, finalizer and outcome; it fails exactly when it creates the role binding |
| `DataPass.TwoPassesSettle` | pkg/controllers/data_controller.go:64-155 | two uninterrupted passes settle any Data without other finalizers: bound, digested, finalized and counted, or gone, or released |
| `DataPass.ThreePassesSettle` | pkg/controllers/data_controller.go:64-155 | three settle any Data whatever finalizers it has |
| `DataPass.RunThenThreePasses` | pkg/controllers/data_controller.go:64-235 | after any allowed run that ends between passes, three uninterrupted passes leave the Data settled, and its items aligned if it and its pod are there |
| `DataPass.SettledStays` | pkg/controllers/data_controller.go:64-155 | a pass over a settled Data changes nothing in the store, not even a version |
| `DataPass.SettleIsRun` | pkg/controllers/data_controller.go:64-155 | such a pass is a run of the machine of at most seven calls |
| `PassFrame.CallFrame` | pkg/controllers/data_controller.go:85-152 | no call changes anything about the pod but its digest, or about the Data but status and own finalizer, creates either of them, or takes a Data out of the store that is live or held by others; the one binding created is that of the pod's account |
| `PassFrame.TurnFrame` | pkg/controllers/data_controller.go:85-152 | the same for refused calls and lost replies, which end the pass |
| `PassFrame.StaleDataIsRefused` | pkg/controllers/data_controller.go:86-148 | an Update of a Data that has changed or is gone does nothing and fails the pass |
| `PassFrame.StalePodIsRefused` | pkg/controllers/data_controller.go:133-229 | so does an Update of a pod that has changed |
| `PassFrame.GonePod` | pkg/controllers/data_controller.go:132-143 | a pod that is gone fails the write of its digest but is no obstacle to removing the finalizer |
| `PassFrame.PatchGoesThrough` | pkg/controllers/data_controller.go:175-177 | a status Patch is never refused while there is a Data, and keeps the stored items |
| `PassFrame.NoNeedlessDigest` | pkg/controllers/data_controller.go:227-232 | the digest is written exactly if the copy of the pod has not got it |
| `PassFrame.NoNeedlessFinalizer` | pkg/controllers/data_controller.go:130-152 | a live Data with the finalizer, and a marked one without it, need no more calls |
| `PassFrame.PassWithoutPod` | pkg/controllers/data_controller.go:83-91 | without a pod a whole pass takes off the finalizer and nothing else, and with it a marked Data nobody else holds |
| `PassFrame.PassWithoutBinding` | pkg/controllers/data_controller.go:209-216 | without the role binding a whole pass stores the status, creates the binding and fails |
| `PassFrame.PassGoesOn` | pkg/controllers/data_controller.go:106-155 | otherwise it goes through: status, digest and finalizer of a live Data stored, those of a marked one cleared, everything else kept |
| `PassFrame.PassWithoutData` | pkg/controllers/data_controller.go:71-79 | for a Data that is gone it does nothing and reports no error |
| `Server.BindingNameIs` | pkg/controllers/data_controller.go:192 | the binding is named after the account, and different accounts have different bindings |
| `DataReconciler.Reconcile` | pkg/controllers/data_controller.go:64-103 | the code makes a run of the machine that is exactly one pass, from its start to the first time it is over, and reports its outcome, whatever the client does |
| `DataReconciler.ReconcileAlone` | pkg/controllers/data_controller.go:64-155 | a request that nobody interrupts leaves exactly the cell and outcome of the machine's whole pass, hence its closed result |
| `DataReconciler.ReconcileSafely` | pkg/controllers/data_controller.go:64-155 | while the others do what they may for as long as the request lasts, the code keeps the protocol's invariant, so alignment, whatever becomes of its calls |
| `DataReconciler.SyncData` | pkg/controllers/data_controller.go:106-128 | from the status on: status, role binding and annotation in the machine's order, aborting at the first error |
| `DataReconciler.SyncFinalizer` | pkg/controllers/data_controller.go:130-155 | the end of syncData: clear the digest and then the finalizer of a marked Data, or store the finalizer |
| `DataReconciler.UpdateDataStatus` | pkg/controllers/data_controller.go:158-186 | sends the machine's status call: reset by Update without the digest, recount by Patch with it |
| `DataReconciler.UpdateRoleBinding` | pkg/controllers/data_controller.go:189-219 | goes on exactly if the binding was there, and creates it otherwise |
| `DataReconciler.UpdatePodAnnotations` | pkg/controllers/data_controller.go:222-235 | sends the machine's annotation call, or none if the digest is there |
| `DataReconciler.Client.UpdateData` | pkg/controllers/data_controller.go:85-90 | an Update of the Data as the machine has it, the reply replacing the local copy |
| `DataReconciler.Client.UpdateStatus` | pkg/controllers/data_controller.go:174 | a status Update as the machine has it, refused for a stale copy |
| `DataReconciler.Client.PatchStatus` | pkg/controllers/data_controller.go:176 | a status Patch as the machine has it, whatever the version |
| `DataReconciler.Client.UpdatePod` | pkg/controllers/data_controller.go:132-136 | an Update of the pod as the machine has it; NotFound counts as done on the deletion path |
| `Sync.TargetFind` | pkg/controllers/dataset_controller.go:110-148 | name by name, the target is the pruned update |
| `Sync.RestartGivesSame` | pkg/controllers/dataset_controller.go:110-258 | from whatever a cut-off pass leaves, a full pass ends in the same store and the same DataSet status as from the start |
| `Sync.RestartCanRun` | pkg/controllers/dataset_controller.go:116-133 | and its names can still be handled |
| `Sync.RestartGivesSameIff` | pkg/controllers/dataset_controller.go:110-258 | from every store between, a full pass gives the same store and status, and goes through if it did before, iff no Data of an absent pod blocks a listed pod's name; if one does, it fails on the store a finished pass leaves |
| `Sync.RepeatGivesSameIff` | pkg/controllers/dataset_controller.go:192-258 | a second pass changes nothing iff the same holds, deleted Data that wait on finalizers included |
| `Sync.OrderDoesNotMatter` | pkg/controllers/dataset_controller.go:116-133 | with distinct suffixes the order of the pod list changes neither store nor status |
| `Sync.StatusIsIrrelevant` | pkg/controllers/dataset_controller.go:234-258 | the stored DataSet status is no input of a pass |
| `Sync.NoCollision` | pkg/controllers/dataset_controller.go:116-168 | with distinct suffixes and Data named by the scheme, no created name is taken in the whole namespace |
| `Sync.OthersUntouched` | pkg/controllers/dataset_controller.go:90-95 | Data of other DataSets stay as they are, and every new Data is the DataSet's own |
| `Sync.MirrorOfPod` | pkg/controllers/dataset_controller.go:116-133 | a listed pod has one Data, under its own name with the template's items, lifecycle and sources, exactly unless the name was taken by another pod's Data |
| `Sync.MirrorOfAbsent` | pkg/controllers/dataset_controller.go:209-231 | a Data of an absent pod is gone, or marked and waiting for the finalizers it had |
| `Sync.WhatStays` | pkg/controllers/dataset_controller.go:110-231 | what there was keeps everything but mark and spec, is marked or gone exactly if it is the DataSet's and its pod is not listed; what there was not is created for a listed pod, labelled for it, with the template's spec and nothing else |
| `Sync.SpecOfIff` | pkg/controllers/dataset_controller.go:181-185 | the spec of a new Data is the template's, field by field |
| `Sync.Mirror` | pkg/controllers/dataset_controller.go:110-231 | kept Data and listed pods correspond one to one by name |
| `Sync.SuccessIsAllItems` | pkg/controllers/dataset_controller.go:233-247 | SuccessReplicas counts exactly the Data all of whose items are in phase success, and is at most Replicas |
| `Sync.StatusSays` | pkg/controllers/dataset_controller.go:234-247 | the DataSet status: the template's item count, the Data for listed pods, those of them with that many successes, and the latter two in "ready" |
| `Composition.PassIsRun` | pkg/controllers/dataset_controller.go:110-231 | what a DataSet pass leaves of one Data, wherever it is cut off, is what a run of creates, rewrites and deletes of the protocol leaves |
| `Composition.PassIsAllowedIff` | pkg/controllers/dataset_controller.go:110-231 | those actions are allowed iff the pass writes no spec the pod carries the digest of without its items, and deletes no Data without finalizers before it may leave |
| `Composition.DataSetPassKeepsInv` | pkg/controllers/dataset_controller.go:110-231 | then a DataSet pass, cut off anywhere in the middle of a Data pass, keeps the protocol's invariant |
| `DataSetReconciler.ConvertDataListToMap` | pkg/controllers/dataset_controller.go:317-323 | the intended index agrees with a linear search by name, one cell for each entry |
| `DataSetReconciler.UpdateDataResource` | pkg/controllers/dataset_controller.go:192-206 | the Data gets the template's items, lifecycle and sources and nothing else changes, without a call if it has them already; or the call fails and nothing changes; it panics exactly if the pod label has no dash |
| `DataSetReconciler.CreateDataResource` | pkg/controllers/dataset_controller.go:151-189 | creates the pod's Data if the name is free, labelled and named for the pod, with the template's spec, no finalizers and an empty status; returns nil without error if the name is taken |
| `DataSetReconciler.SyncPod` | pkg/controllers/dataset_controller.go:116-133 | one round of the pod loop, with the dereference of nil as a crash |
| `DataSetReconciler.UpdatePhase` | pkg/controllers/dataset_controller.go:116-133 | after each pod the store is what the update makes of the pods so far; a crash means that the names cannot be handled |
| `DataSetReconciler.PruneDataResources` | pkg/controllers/dataset_controller.go:209-231 | deletes exactly the listed Data without a listed pod, up to the call that fails, and keeps the others in the list |
| `DataSetReconciler.CountStatus` | pkg/controllers/dataset_controller.go:234-247 | the counting loop gives the number of entries and of those whose success counter is the template's item count |
| `DataSetReconciler.UpdateDataSetStatus` | pkg/controllers/dataset_controller.go:234-258 | writes the counted status, and makes no call if the DataSet has it |
| `DataSetReconciler.Conclude` | pkg/controllers/dataset_controller.go:135-147 | prune and status write: store and status are the target's, or in between when cut off |
| `DataSetReconciler.SyncDataSet` | pkg/controllers/dataset_controller.go:110-148 | done: store and status are the target's; cut off: every name is between; given enough calls it is done iff the names can be handled |
| `DataSetReconciler.ListData` | pkg/controllers/dataset_controller.go:89-98 | the list holds exactly the stored Data that are labelled with the DataSet's name |
| `DataSetReconciler.Reconcile` | pkg/controllers/dataset_controller.go:62-107 | a request on a freshly read list does what the pass says and keeps the store valid; given enough calls it is done iff the names can be handled |
| `DataSetReconciler.ReconcileAgain` | pkg/controllers/dataset_controller.go:62-258 | a request cut off at any call and another one after it: together the target of the first, and the second does not crash |
| `NameIndex.ConvertDataListToMapLiterally` | pkg/controllers/dataset_controller.go:317-323 | as Go 1.16 runs it, every entry is the loop variable with the last item, so a lookup is right only for the last |
| `NameIndex.LiteralSyncPod` | pkg/controllers/dataset_controller.go:116-133 | one round of the pod loop on that index: any hit writes the last item's Data |
| `NameIndex.LiteralUpdatePhase` | pkg/controllers/dataset_controller.go:116-133 | however the phase ends, of the Data there were at most the last listed one is written; given enough calls it is done iff every hit finds a dash in the last item's pod name and every miss a free name |
| `NameIndex.LiteralIsIntendedIff` | pkg/controllers/dataset_controller.go:116-124 | where the intended phase is done, the literal one can be done and does the same to every name iff all wanted Data but the last are up to date and, on any hit, the last one's pod name has a dash and it is wanted or up to date |
| `NameIndex.LiteralPhase` | pkg/controllers/dataset_controller.go:113-133 | the phase itself, index and loop: done with the intended result iff that holds |
| `Selector.ContainsAll` | pkg/utils/utils.go:26-33 | decides whether the entries of the one map are among those of the other, in whatever order the map is visited |
| `Selector.FirstSelectingIs` | pkg/webhook/injector.go:238-244 | the DataSet found is the first of the list that selects the labels, and none if none does |
| `Selector.FindDataSetForPod` | pkg/webhook/injector.go:231-245 | the loop finds that DataSet |
| `Injector.PodInjector.PatchSidecar` | pkg/webhook/injector.go:108-156 | appends the sidecar, which is told the name of the first container |
| `Injector.PodInjector.PatchVolumes` | pkg/webhook/injector.go:159-192 | appends three volumes, and two mounts to every container, the sidecar included |
| `Injector.PodInjector.PatchAffinity` | pkg/webhook/injector.go:195-219 | appends one preferred term, creating what is missing, if affinity is enabled |
| `Injector.PodInjector.PatchAnnotations` | pkg/webhook/injector.go:222-228 | sets the dataset annotation |
| `Injector.PodInjector.MutatePod` | pkg/webhook/injector.go:97-105 | the four edits in place come to the injected pod |
| `Injector.PodInjector.Handle` | pkg/webhook/injector.go:65-94 | the decision: untouched if annotated or not selected, an error if the list call fails, injected otherwise |
| `Injector.InjectionKeepsReferencesIff` | pkg/webhook/injector.go:97-192 | after injection every mount names exactly one volume, the sidecar's and the init containers' included, iff it did before up to reserved names and no volume had a reserved name |
| `Injector.InjectionOnlyAdds` | pkg/webhook/injector.go:97-228 | containers, volumes and mounts of the pod stay as prefixes, each container gains exactly the share and host mounts, other annotations stay |
| `Injector.InjectionAdds` | pkg/webhook/injector.go:159-228 | every container ends with share-data at the data path and host-data at the host path; the volumes are an empty directory, the host directory and the annotations; the annotation names the DataSet |
| `Injector.SidecarIs` | pkg/webhook/injector.go:108-156 | the sidecar's name, image, mounts, arguments and environment |
| `Injector.AffinityAdds` | pkg/webhook/injector.go:195-219 | switched off nothing, otherwise exactly one preferred term for the selector, all other terms kept |
| `Injector.AdmissionSays` | pkg/webhook/injector.go:65-94 | which answer is given when, a failed list call being answered with 500, and that exactly the selected pods that name no DataSet and have a container are changed |
| `Injector.AdmissionIsIdempotent` | pkg/webhook/injector.go:65-94 | handling the output again changes nothing; after an injection, for any later DataSet list; it panics exactly on a selected pod without containers |
| `Injector.InjectedAtMostOnce` | pkg/webhook/injector.go:65-94 | any number of admissions inject once, by the first list that has a DataSet for the pod |
| `Injector.AtMostOneSidecar` | pkg/webhook/injector.go:75-85 | and add at most one sidecar |
| `Agreement.InjectedPodAsks` | pkg/controllers/dataset_controller.go:261-298 | an injected pod maps to the request for the DataSet that selected it |
| `Agreement.PlainPodAsksNothing` | pkg/controllers/dataset_controller.go:261-298 | a pod asks for a reconcile exactly if its annotation names a DataSet, and for that one |
| `Agreement.InjectedPodGetsData` | pkg/controllers/dataset_controller.go:79-98 | under the name it is stored with, generated or not, it lies in that DataSet's pod list, and a done pass leaves it a Data with the template's spec unless the name is another pod's |
| `World.PassKeepsWellFormed` | pkg/controllers/dataset_controller.go:110-258 | every pass of either reconciler keeps Data named after their DataSet and pod, and one Data per pod |
| `World.PassGoesThrough` | pkg/controllers/dataset_controller.go:116-133 | in such a namespace no pass meets a name it cannot handle |
| `World.NameTellsOwner` | pkg/controllers/dataset_controller.go:325-332 | the name of a stored Data tells its DataSet and the suffix of its pod |
| `Convergence.DataSetPassLowers` | pkg/controllers/dataset_controller.go:110-258 | a DataSet pass that changes anything lowers the measure |
| `Convergence.DataPassLowers` | pkg/controllers/data_controller.go:64-155 | so does a Data pass |
| `Convergence.PassLowers` | pkg/controllers/data_controller.go:64-155 | every pass leaves the namespace as it is or less to do: orphans of gone or unselected pods, marked Data, unserved pods, missing bindings, digests, finalizers, stale counters, stale reports |
| `Convergence.ComesToRest` | pkg/controllers/dataset_controller.go:62-107 | in any order of passes nothing changes from some point on |
| `AtRest.PassKeepsFaithful` | pkg/controllers/data_controller.go:158-235 | passes keep digests faithful: one that matches a Data's spec tells that its items are aligned, and one that matches the template that the Data has it or is ready for it |
| `AtRest.RestingIsConverged` | pkg/controllers/dataset_controller.go:110-258 | where no pass has anything to do, every selected pod has exactly its Data, bound, digested, finalized, counted and reported, but for marked Data that others hold |
| `AtRest.ConvergedHasTemplate` | pkg/controllers/dataset_controller.go:192-206 | there the Data of each selected pod has the template's items, lifecycle and sources |
| `AtRest.FaithfulIsAligned` | pkg/controllers/data_controller.go:158-235 | where moreover digests are faithful, the items are those of the specs |
| `AtRest.Converges` | pkg/controllers/dataset_controller.go:62-258 | every fair schedule of both reconcilers comes to rest there, without finalizers of others no marked Data is left, and if digests were faithful at the start the items are those of the specs |
| `AtRest.ConvergedCounts` | pkg/controllers/dataset_controller.go:233-247 | and then the status has the template's item count, Replicas the number of selected pods, SuccessReplicas at most that and both in "ready", and, with the items those of the specs, SuccessReplicas the number of pods all of whose items have arrived |
| `FaithfulStates.StatesAreFaithful` | pkg/controllers/data_controller.go:64-235 | where every selected pod is in a state of the protocol in which the template may be written, digests are faithful |
| `DeepCopy.CopyHandler` | pkg/api/data/v1alpha1/zz_generated.deepcopy.go:413-435 | equal value on new objects |
| `DeepCopy.CopyLifecycle` | pkg/api/data/v1alpha1/zz_generated.deepcopy.go:388-410 | equal value on new objects |
| `DeepCopy.CopyItem` | pkg/api/data/v1alpha1/zz_generated.deepcopy.go:71-88 | equal value on new objects |
| `DeepCopy.CopySources` | pkg/api/data/v1alpha1/zz_generated.deepcopy.go:257-279 | equal value on new objects |
| `DeepCopy.CopyHdfs` | pkg/api/data/v1alpha1/zz_generated.deepcopy.go:368-385 | equal value on new objects, nil and empty addresses told apart |
| `DeepCopy.CopySpec` | pkg/api/data/v1alpha1/zz_generated.deepcopy.go:282-311 | equal value on new objects at every depth, nil and empty items told apart |
| `DeepCopy.CopyStatus` | pkg/api/data/v1alpha1/zz_generated.deepcopy.go:314-333 | equal value on a new item list, nil and empty told apart |
| `DeepCopy.CopyItemsStatus` | pkg/api/data/v1alpha1/zz_generated.deepcopy.go:107-115 | copied on its own and without a guard, a nil list comes out empty |
| `DeepCopy.CopyData` | pkg/api/data/v1alpha1/zz_generated.deepcopy.go:44-60 | the copy has the same value, everything reachable from it is new, and the original is unchanged |

## Left out

- MD5 and JSON encoding: the digest is a parameter, injective where that is needed; an encoding error of MD5 is an aborted pass before any write.
- Informer caches: every read sees the store at that moment, and after a write that succeeds the local copy is the reply.
- Conflicts in a DataSet pass: nobody else writes the listed Data during it; a refused call ends the pass wherever it comes, which is what a conflict would do.
- Lost replies in a DataSet pass: the imperative pass only loses whole calls; `Sync.RestartGivesSame` covers every store between, those included.
- Interleaved passes in convergence: each pass is taken whole, as the closed results of `DataPass` and `DataSetReconciler` give it, and no call fails.
- Two DataSets that select one pod: excluded where one Data per pod is stated; the code marks this case as a todo (`pkg/webhook/injector.go:237`).
- Reading the clock once per item: a reset reads it once for the whole list.
- Owner references, the scheme, garbage collection and uids: not modelled; deleting a DataSet is outside the model.
- Finalizers are a set: their order and repetitions are not modelled; in convergence those of others stay as they are.
- Role bindings are known by name only; their subjects and role are fixed data.
- The list and decode calls around `Handle`: an undecodable request and the encoding of the patch response are left out, the DataSet list is an input; an empty pod namespace, which lists all namespaces, is excluded where `Agreement` speaks of one namespace.
- Env and volume sources of the pod beyond those the webhook writes are carried along unread.
- DeepCopy.CopyData: object metadata and the actions of other packages (ExecAction, HTTPGetAction) are copied as values, because their code is not part of this repository.
- Deep copies of DataSet, the template and the lists repeat the pattern of Data and would only add easy members.
- Generated clients, listers and informers, process start-up, manifests and RBAC: no behaviour beyond one reading.
