# A verified model of the Nacos operator

The Nacos operator keeps one `Nacos` resource in step with the cluster that runs it. This project models the parts of
the operator in which something can go wrong over time, or in which the result must not depend on chance, and proves
what they keep.

**The reconcile loop** (`Machine`, `Reconciler`). A `Nacos` resource, two source ConfigMaps, the merged ConfigMap, the
StatefulSet, the sentinel table of the database, the informer cache, the undelivered watch events and the work queue are
one state. Steps are the single requests of the six stages, each of which may be lost, or may take effect and be reported
as failed; user edits and deliveries interleave with them anywhere. Over every run:

- a config-managed resource that is settled is rolled out; exactly which edits are lost is stated (`MachineRollout`);
- once settled it stays rolled out, whatever fails, until someone edits what it is made from (`MachineSteady`);
- what an undisturbed reconcile leaves in the whole store is determined, and it leaves the resource at rest exactly if the
  stored status told all, the current second included (`MachinePass`, `MachineSettles`);
- from every reachable state with mergeable sources and healthy pods, a restart and undisturbed reconciles settle the
  resource if and only if its StatefulSet can settle (`MachineRecovery`, `MachineStuck`);
- every stored status has `Healthy` exactly when its phase is Running, and Failed is not shown during the grace period
  (`MachineStatus`); its event log is the bounded log of the reports stored in the run (`MachineLog`);
- a stored init marker tells what is in the sentinel table unless an initialisation was begun from an outdated cache, and
  exactly when an initialisation breaks the two apart is stated (`MachineMarker`).

`Reconciler` is the code as it runs, a loop of stages that change one object in memory and panic; each call of it is
proved to be a run of the machine, whatever its requests come to and whatever users and watches do between its stages, so
it keeps all of the above.

**The override merge** (`KeyedLists`, `ContainerMerge`, `Volumes`, `HostAliases`). Lists are merged by key through Go maps,
whose iteration order is modelled as an arbitrary choice. One theory (the map in which the last entry of a key wins, its
union with a combiner, the listing sorted by key) shows that the order does not matter and that merging is associative, for
environment variables, ports, devices, mounts and whole containers, as the nested calls return them. Mounts need keys that
identify them across each two of the lists; the input for which they fail is given. For volumes, which do not merge
associatively, it is stated exactly when grouping matters. This is what makes repeated builds compare equal (`Builder`).
What an override does to each field (`ContainerFields`) and what the main container of a built object is and sees
(`MainFields`, `ContainerEnv`) are stated apart from how they are computed.

**Verdicts and formats.** The health check with its quorum and leader agreement (`Health`), the printed server list and the
pod name parsed back from it (`Servers`), the bounded event log against the unbounded history (`Status`), the merged
configuration text under the line rules of `java.util.Properties.load` of the Java SE API (`Properties`, `Kind`), the
rotation of the admin password under interruption (`Postgres`), the convergence of StatefulSet updates (`StatefulSets`) and
the escaping of credentials against percent-decoding of RFC 3986, section 2.1 (`Escaping`).

`dafny verify dfyconfig.toml` checks the whole project.

## Model

| member | source | states |
|---|---|---|
| MachineRollout.NoLostRollout | pkg/service/operator/Kind.go:249-262 | After any run with edits anywhere and any request failing, a config-managed resource that is neither queued, being reconciled nor announced has final-config equal to the merge of the current sources, the digest of that text in the template annotations, and a StatefulSet agreeing with a build on all compared fields |
| MachineRollout.EditArrives | controllers/nacos_controller.go:132-159 | From a rolled-out state with nothing on its way, after an edit or deletion of any ConfigMap and the delivery of its event, a reconcile is bound to come or the resource is still rolled out if and only if the List succeeded and the resource refers to the ConfigMap, or the merge is what it was |
| MachineRollout.DroppedEventLosesRollout | controllers/nacos_controller.go:134-140 | So any edit or deletion of either source that changes the merge is lost when the List fails |
| MachineRollout.StepKeepsRollout | controllers/nacos_controller.go:79-112 | Every single step, of the reconcile or of its surroundings, keeps the invariant behind the rollout theorem |
| MachineRollout.RunKeepsRollout | controllers/nacos_controller.go:69-76 | So does every run |
| MachineSteady.StaysRolledOut | doc/2_CONFIG_MANAGEMENT_FEATURE.md:36-47 | From every reachable settled state the configuration stays rolled out in every run, through queued and running reconciles, failing requests, restarts and dropped events, until an edit of the spec, of the StatefulSet or of a ConfigMap the resource refers to |
| MachineSteady.OperatorBuildsAlike | pkg/service/k8s/statefulset.go:155-200 | Any two builds for one spec and digest compare alike with every stored object |
| MachineSteady.StepKeepsSteady | controllers/nacos_controller.go:79-112 | Every step but those edits keeps a rolled-out state rolled out |
| MachineSteady.RunKeepsSteady | controllers/nacos_controller.go:79-112 | So does every run of such steps |
| MachineSettles.PassesFully | controllers/nacos_controller.go:79-112 | Every undisturbed reconcile of a resource whose sources can be merged, in which no request fails, rotation is as secret and status demand and the pods asked are healthy, ends in one of three ways, each with final-config, StatefulSet, stored status and queue determined: a resource without a phase gets one; all stages return and Running is stored; or it panics behind a StatefulSet that could not be compared or had to be deleted |
| MachineSettles.PassHappens | controllers/nacos_controller.go:79-112 | There is such a reconcile from every state in which one can begin |
| MachineSettles.SameExactly | pkg/service/operator/Status.go:35-104 | The status an undisturbed reconcile stores is the one it loaded if and only if that is Running and healthy with the conditions, version and digest there are, no initialisation or rotation is due, and the log has at most ten entries, the last of which says Running at the current second |
| MachineSettles.PassRestsExactly | controllers/nacos_controller.go:69-76 | Every undisturbed reconcile of a rolled-out resource stores nothing and leaves it at rest if and only if the status it loaded is such a one; otherwise it stores a version, whose event queues the resource again |
| MachineSettles.LaterPassStores | pkg/service/operator/Status.go:84-88 | So an undisturbed reconcile in a later second than the last one always stores another version |
| MachineRecovery.EveryStateSettles | controllers/nacos_controller.go:69-76 | From every reachable state whose sources can be merged, whose pods are healthy and whose StatefulSet can settle, a restart followed by nothing but undisturbed reconciles and deliveries of what they announce ends rolled out with nothing queued, on its way or dropped, with the clock standing still |
| MachineRecovery.TwicePassedTellsAll | pkg/service/operator/Status.go:63-104 | Within one second the third such reconcile at the latest has nothing to tell |
| MachineRecovery.OperatorIsUniform | pkg/service/k8s/statefulset.go:155-200 | Whether a stored object can settle does not depend on the digest nor on which build is applied, and every build has the replicas of the resource |
| MachineStuck.NeverRollsOut | pkg/service/k8s/statefulset.go:179-200 | From a restart on a StatefulSet that cannot settle, no run without an edit of the spec or of the StatefulSet is ever rolled out, whatever fails or succeeds |
| MachineStuck.SettlesExactly | pkg/service/k8s/statefulset.go:109-133 | So undisturbed reconciles after a restart settle the resource if and only if its StatefulSet can settle |
| MachineStatus.HealthyMeansRunning | pkg/service/operator/Status.go:106-108 | Every status stored in any run, the two writes in mid-pipeline included, has Healthy exactly when the phase is Running |
| MachineStatus.GracePeriod | controllers/nacos_controller.go:162-181 | A stored Failed is later than creation plus three minutes or preceded by a stored Running |
| MachineStatus.FailureShown | controllers/nacos_controller.go:173-176 | The same of every state of the machine at the handler: after the write the latest status says Failed with that code and message, as of now, if and only if the phase has moved on from Creating or creation is more than three minutes ago, or it said so before |
| MachineStatus.FailureStored | pkg/service/operator/Status.go:50-61 | When it is shown, everything else of the status in memory is stored as it is |
| MachineStatus.OtherPanics | controllers/nacos_controller.go:166-180 | A plain panic, a lost write and an outdated object store nothing; the normal code stores the status in memory |
| MachineStatus.PhaseChanges | pkg/service/operator/Status.go:35-41 | Running is entered only by the last write of a reconcile whose first five stages returned; a stored phase never becomes empty |
| MachineStatus.StepKeepsStatus | pkg/service/operator/operaror.go:72-86 | Every step keeps the history of statuses well-formed |
| MachineStatus.RunKeepsStatus | controllers/nacos_controller.go:79-112 | So does every run |
| MachineLog.StoredLog | pkg/service/operator/Status.go:63-104 | After every run the log of the stored status is the bounded log of the reports stored in that run: Running for each final write that appended a version, the code and message for each handled panic that did |
| MachineLog.StoredCodes | pkg/service/operator/Status.go:63-104 | So its codes are the latest of the run-length compressed codes stored in the run, all of them up to ten and then ten or eleven; neighbours differ, and a true status means code 200 |
| MachineLog.StepLogs | controllers/nacos_controller.go:79-112 | Every step keeps the stored log, and that of the instance in memory, that of its version, plus the report it stores |
| MachineMarker.MarkerSafeExactly | pkg/service/operator/PGClient.go:95-133 | In every reachable state about to initialise in which markers and table agree, they agree wherever the initialisation is cut off if and only if the latest stored status is not initialised; the code makes this test on what the cache holds |
| MachineMarker.CutOffExactly | pkg/service/operator/PGClient.go:123-133 | In every reachable state about to initialise, cut off after create markers and table agree as before; after delete, if and only if the latest stored status is not initialised; after insert, if and only if it is not or names the version inserted |
| MachineMarker.CutOffHappens | pkg/service/operator/PGClient.go:123-133 | Each of these tables comes about |
| MachineMarker.MarkerSound | pkg/service/operator/PGClient.go:95-146 | In every run in which no initialisation was begun while the stored status already said initialised, every stored marker is true of the table, with failure possible at every statement |
| MachineMarker.StaleCacheBreaksMarker | pkg/service/operator/PGClient.go:127-133 | Such a run exists from every initial state with initialisation on: it ends with the marker stored and the table empty |
| MachineMarker.StepKeepsMarker | pkg/service/operator/PGClient.go:123-146 | Every step keeps stored markers unchanged for good and, unless an initialisation was begun too early, in agreement with the table |
| MachineMarker.RunKeepsMarker | pkg/service/operator/PGClient.go:95-146 | So does every run |
| MachineMarker.InitRecords | pkg/service/operator/PGClient.go:119-146 | A completed insert leaves in the table the version asked for, or the first where none is, and the status in memory says so |
| Machine.LeadsOn | controllers/nacos_controller.go:79-112 | Runs compose |
| Reconciler.NacosReconciler.Reconcile | controllers/nacos_controller.go:56-77 | One call, however its requests turn out and whatever users and watches do before each of its stages, is a run of the machine that starts with the read of the resource, and none if that fails; it keeps the three invariants |
| Reconciler.NacosReconciler.Meanwhile | controllers/nacos_controller.go:132-159 | Of any list of edits, clock ticks and deliveries those that can happen when their turn comes do happen, and each is a step of the machine |
| Reconciler.NacosReconciler.ReconcileWork | controllers/nacos_controller.go:79-112 | The stage loop with its two recovers ends idle, queued again unless it returns true, and true means that Running was stored |
| Reconciler.NacosReconciler.Stage | controllers/nacos_controller.go:98-109 | Each of the six stages leads to the next one or to the handler |
| Reconciler.NacosReconciler.PreCheck | pkg/service/operator/operaror.go:72-86 | An empty phase becomes Creating and panics with the normal code; it returns exactly otherwise |
| Reconciler.NacosReconciler.PGEnsure | pkg/service/operator/operaror.go:89-99 | Leads to the rotation stage or the handler, and returns exactly when no request it has to make fails |
| Reconciler.NacosReconciler.CheckPG | pkg/service/operator/PGClient.go:90-117 | Whether the table is to be written, and that nothing is written when it is not |
| Reconciler.NacosReconciler.WriteSentinel | pkg/service/operator/PGClient.go:123-146 | Create, delete, insert and the status write, in that order, stopping at the first failure |
| Reconciler.NacosReconciler.RecordInit | pkg/service/operator/PGClient.go:137-146 | The status write whose error is swallowed |
| Reconciler.NacosReconciler.RotateAdmin | pkg/service/operator/operaror.go:113-124 | Leads on or to the handler, and returns exactly when nothing is to be rotated or the rotation goes through |
| Reconciler.NacosReconciler.RecordRotation | pkg/service/operator/PGClient.go:233-243 | The status write after a rotation, whose error is ignored |
| Reconciler.NacosReconciler.MakeEnsure | pkg/service/operator/operaror.go:43-70 | An unknown type is refused before any request; otherwise ConfigMap, StatefulSet and services in order, and returning means that they went through |
| Reconciler.NacosReconciler.EnsureConfigmap | pkg/service/operator/Kind.go:249-262 | Returns exactly when the resource is not managed or both sources were read and the merge was stored; with either reference given that merge is then in final-config and its digest in memory, and with neither nothing changes |
| Reconciler.NacosReconciler.EnsureStatefulset | pkg/service/operator/Kind.go:215-226 | What is built fits the spec and the digest in memory; returns exactly when the update of the StatefulSet does |
| Reconciler.NacosReconciler.CheckAndMakeHeal | pkg/service/operator/operaror.go:101-106 | Returns exactly when the StatefulSet has the replicas, a quorum of pods is ready and all of them report a healthy cluster |
| Reconciler.NacosReconciler.UpdateStatus | pkg/service/operator/operaror.go:108-110 | Returns exactly when the write of a current object is heard to succeed, with Running stored |
| Reconciler.NacosReconciler.UpdateStatusRunning | pkg/service/operator/Status.go:35-41 | The status in memory and in the store after the write |
| Reconciler.NacosReconciler.UpdateExceptionStatus | pkg/service/operator/Status.go:50-61 | The same for a failure |
| Reconciler.NacosReconciler.GlobalExceptHandle | controllers/nacos_controller.go:162-181 | A handled panic leads to an idle worker and a queued resource |
| Reconciler.NacosReconciler.Report | controllers/nacos_controller.go:162-181 | A coded error on a current object whose write takes effect is stored as Failed with its code and message exactly if the phase in memory is not Creating or three minutes have passed since creation, and else nothing is stored; a plain panic stores nothing and the normal code the phase as it is |
| Reconciler.NacosReconciler.StatusUpdate | pkg/service/operator/Status.go:44-48 | A write from an outdated version is refused; success is heard only of a write that is stored |
| Reconciler.RequestOnObserved | pkg/service/k8s/statefulset.go:109-133 | The request made on an object nobody has changed since is one step towards the desired one |
| Reconciler.RequestOnChanged | pkg/service/k8s/statefulset.go:122-130 | A StatefulSet that somebody has changed since it was read is never overwritten, and deleted at most where the claims that were read cannot stay |
| Reconciler.FindNacosForConfigMap | controllers/nacos_controller.go:132-159 | Requests are those of the listed resources that refer to the ConfigMap, in order, and none if listing fails |
| Reconciler.RequestsExactly | controllers/nacos_controller.go:143-156 | A resource is requested if and only if a listed resource of that name and namespace refers to the ConfigMap |
| Reconciler.RequestsInOrder | controllers/nacos_controller.go:142-158 | The requests keep the order of the list |
| Reconciler.RunKeeps | controllers/nacos_controller.go:56-77 | Any run keeps all three invariants |
| KeyedLists.StableSortIsStable | pkg/util/merge/merge.go:548-550 | The sort yields a sorted permutation that keeps equal keys in their order |
| KeyedLists.StableSortUnique | pkg/util/merge/merge.go:548-550 | There is just one such list, so any stable sort returns it |
| KeyedLists.VisitOrderIrrelevant | pkg/util/merge/merge.go:317-325 | Collecting a map in any iteration order and sorting gives the one listing of the map |
| KeyedLists.CanonicalUnique | pkg/util/merge/merge.go:317-325 | Two strictly sorted lists with the same entries are equal |
| KeyedLists.MergedMeaning | pkg/util/merge/merge.go:299-326 | A merged list is strictly sorted and holds exactly the union of the last entries by key, combined where both sides have one |
| KeyedLists.MergedAssociative | pkg/util/merge/merge.go:299-326 | Merging is associative if the combiner is and merging keeps keys |
| KeyedLists.MergedWithNothing | pkg/util/merge/merge.go:299-326 | Merging an empty list into a sorted list without repeated keys changes nothing |
| KeyedLists.CreateMap | pkg/util/merge/merge.go:342-348 | Filling a map from a list leaves the last entry of each key |
| KeyedLists.SliceStable | pkg/util/merge/merge.go:446-448 | Sorts stably by key |
| KeyedLists.OverlayMaps | pkg/util/merge/merge.go:429-439 | Overlaying one map on another in any order of visits gives their union with the combiner |
| KeyedLists.CollectBoth | pkg/util/merge/merge.go:394-406 | So do two loops that append, up to order |
| KeyedLists.MergeByKey | pkg/util/merge/merge.go:424-451 | The whole merge, in any iteration orders, is the merged list above |
| ContainerMerge.StringSlices | pkg/util/merge/merge.go:13-22 | Appends the strings not yet there |
| ContainerMerge.AppendNewHas | pkg/util/merge/merge.go:13-22 | The result begins with the first list, holds exactly the strings of both, and repeats none but those the first list repeats |
| ContainerMerge.AppendNewAssociative | pkg/util/merge/merge.go:13-22 | And it is associative |
| ContainerMerge.Envs | pkg/util/merge/merge.go:299-326 | In any iteration orders equals the merged list by name |
| ContainerMerge.EnvsAssociative | pkg/util/merge/merge.go:299-340 | Merging environments is associative |
| ContainerMerge.ContainerPortSlicesByName | pkg/util/merge/merge.go:388-413 | In any iteration orders equals the merged list by name |
| ContainerMerge.PortsAssociative | pkg/util/merge/merge.go:365-413 | Merging ports is associative |
| ContainerMerge.VolumeDevices | pkg/util/merge/merge.go:250-276 | In any iteration orders equals the merged list by name |
| ContainerMerge.DevicesAssociative | pkg/util/merge/merge.go:250-297 | Merging devices is associative |
| ContainerMerge.VolumeMounts | pkg/util/merge/merge.go:424-451 | Equals the merged list by key whenever the keys identify the mounts |
| ContainerMerge.MountKeyInjective | pkg/util/merge/merge.go:454-456 | Joining by "_" identifies name, path and sub-path where names and paths hold no "_" |
| ContainerMerge.PlainContainersIdentify | pkg/util/merge/merge.go:454-456 | So keys identify mounts across any lists of containers whose mounts hold no "_" there |
| ContainerMerge.MergedMountsIdentify | pkg/util/merge/merge.go:424-451 | Keys that identify across each two of three lists do so across a merged list and the third |
| ContainerMerge.MountsAssociative | pkg/util/merge/merge.go:424-495 | Then what the four nested calls return is the same in either grouping, in any iteration orders |
| ContainerMerge.MountsNotAssociative | pkg/util/merge/merge.go:454-456 | Mounts with colliding keys for which it is not |
| ContainerMerge.MergeContainer | pkg/util/merge/merge.go:89-144 | Every field of the merged container; mounts too where keys identify |
| ContainerMerge.ContainerAssociative | pkg/util/merge/merge.go:89-144 | What nested merges of single containers return is the same in either grouping, if keys identify mounts across each two |
| ContainerMerge.ProbeAssociative | pkg/util/merge/merge.go:147-182 | Merging probes is associative |
| ContainerMerge.Containers | pkg/util/merge/merge.go:51-79 | In any iteration orders equals the merged list by name, but for mounts whose keys collide |
| ContainerMerge.ContainersAssociative | pkg/util/merge/merge.go:51-144 | What nested merges of container lists return is the same in either grouping, in any iteration orders, if keys identify mounts across each two layers |
| ContainerMerge.SilentOverrideKeeps | pkg/util/merge/merge.go:147-495 | An element override that sets nothing changes nothing |
| ContainerMerge.FullOverrideWins | pkg/util/merge/merge.go:147-495 | One that sets everything leaves nothing of the original but the fields overrides never reach |
| ContainerMerge.SilentContainerKeeps | pkg/util/merge/merge.go:89-144 | Merging in a container that only has a name changes nothing in one whose lists are sorted |
| ContainerFields.ResourcesMerged | pkg/util/merge/merge.go:351-363 | Limits and requests are the override's where it sets them and else the original's |
| ContainerFields.ProbeMerged | pkg/util/merge/merge.go:147-183 | The same of each field of a probe, but for the grace period, which stays |
| ContainerFields.LifecycleMerged | pkg/util/merge/merge.go:185-202 | Of each hook |
| ContainerFields.SecurityMerged | pkg/util/merge/merge.go:204-248 | Of each field of a security context, but for the seccomp profile, which stays |
| ContainerFields.PortsMerged | pkg/util/merge/merge.go:365-413 | Ports come out in the order of their names, and under a name both lists have stands the last port of the one with each field set from the last of the other |
| ContainerFields.DevicesMerged | pkg/util/merge/merge.go:250-297 | The same of devices |
| ContainerFields.EnvsMerged | pkg/util/merge/merge.go:299-340 | The same of variables, where a source displaces a value and a value a source |
| ContainerFields.MountsMerged | pkg/util/merge/merge.go:424-495 | The same of mounts of one name, path and sub-path, where keys identify |
| ContainerFields.ContainerMerged | pkg/util/merge/merge.go:89-144 | Every field of a merged container: the override's where it sets it and else the original's, each list merged from its own, and what overrides never reach as in the original |
| ContainerFields.ContainerOfList | pkg/util/merge/merge.go:51-79 | Each container of a merged list is the last of its name on one side, or the last of the originals with each field set from the last of the overrides |
| ContainerFields.ContainersByName | pkg/util/merge/merge.go:51-79 | There is one container of each name of either list, in the order of the names |
| Volumes.MergeVolumes | pkg/util/merge/merge.go:527-552 | The stable sort by name of every default, merged with the last override of its name, and every override with a new name |
| Volumes.CountsKept | pkg/util/merge/merge.go:527-552 | For every name nothing is lost and duplicates are kept, in order |
| Volumes.MergeVolume | pkg/util/merge/merge.go:554-608 | Which source the merged volume has and each of its fields |
| Volumes.MergeKeyToPathItems | pkg/util/merge/merge.go:618-640 | As a map by key the items are the override union, each key once, in any iteration order |
| Volumes.VolumeAssociative | pkg/util/merge/merge.go:554-608 | Three layers of a volume, each of one source, give the same in either grouping, items compared by key, unless the outer two are of one mergeable kind, the middle one is of another, and the last leaves open a field or item the first would contribute; exactly then they differ |
| Volumes.MergeChanges | pkg/util/merge/merge.go:565-598 | Merging a volume onto one of its kind changes it if and only if it leaves something open |
| Volumes.VolumeNotAssociative | pkg/util/merge/merge.go:600-607 | An instance of the exception |
| HostAliases.MergeAliases | pkg/util/merge/merge_podtemplate_spec.go:190-224 | The listing by IP of the names defined for each IP |
| HostAliases.MergedAliasesMeaning | pkg/util/merge/merge_podtemplate_spec.go:190-224 | Sorted by IP, each IP of either list once, with the base entry's names followed by the first occurrences of later override names |
| HostAliases.OneOverride | pkg/util/merge/merge_podtemplate_spec.go:196-212 | One more override entry extends its own IP and no other |
| Builder.BuildDesired | pkg/service/operator/Kind.go:545-825 | Panics exactly for a claim whose size does not parse and a cluster without replicas; otherwise replicas, annotations and claims are determined and the containers are the main one merged with the pod override, up to mounts with colliding keys |
| ContainerEnv.MainIsThere | pkg/util/merge/merge_podtemplate_spec.go:10-16 | Every object built has a container of the resource's name |
| ContainerEnv.SeenInMain | pkg/util/merge/merge.go:299-326 | What it sees under any name is what the operator put there, unless the last override container of its name lists that variable with a value or a source, and then that |
| ContainerEnv.OverriddenExactly | pkg/util/merge/merge.go:328-340 | The value the operator put there is seen if and only if that container does not list the variable, or lists it empty or with the same value or source |
| ContainerEnv.KindMeaning | pkg/service/operator/Kind.go:632-643 | Whatever the user lists, a cluster's main container sees its number of replicas and a single node's the standalone mode, up to that override |
| ContainerEnv.ModeMeaning | pkg/service/operator/Kind.go:551-568 | A function mode is seen if one is given, and the host mode as the operator's exactly otherwise, up to that override |
| ContainerEnv.AuthMeaning | pkg/service/operator/Kind.go:570-591 | The configured token is seen where authentication is on and what the user lists otherwise, up to that override |
| ContainerEnv.AuthSettings | pkg/service/operator/Kind.go:570-591 | With authentication on its switch, expiry and caching are seen as the resource gives them, up to that override |
| ContainerEnv.DatabaseMeaning | pkg/service/operator/Kind.go:593-630 | The platform is seen as MySQL where the database is and as the user lists it otherwise, up to that override |
| ContainerEnv.MysqlMeaning | pkg/service/operator/Kind.go:600-629 | With MySQL the host, port, database, user and password of the resource are seen under their five names, up to that override |
| ContainerEnv.EmbeddedMeaning | pkg/service/operator/Kind.go:593-598 | The embedded storage is seen exactly with an embedded database and as the user lists it otherwise, up to that override |
| ContainerEnv.UserKeeps | pkg/service/operator/Kind.go:551-630 | Without authentication and MySQL what the user lists under a longer name is seen, up to that override |
| ContainerEnv.ServersMeaning | pkg/service/operator/Kind.go:1034-1061 | A cluster's main container sees the list of server addresses, up to that override |
| MainFields.MainAsAsked | pkg/service/operator/Kind.go:655-815 | Without an override of its name the main container has the image, command, ports, resources and probes the resource asks for, the data directory mounted from the storage given and application.properties where configuration is managed |
| MainFields.MainOverridden | pkg/util/merge/merge.go:89-144 | With one, every field is set from the last override container of its name onto those |
| MainFields.MainResources | pkg/util/merge/merge.go:351-363 | So the resources compared, image and probes are those of the resource with what that override sets of them |
| Builder.DomainName | pkg/service/operator/Kind.go:1036-1042 | The last non-empty DOMAIN_NAME, or the default |
| Builder.DomainGiven | pkg/service/operator/Kind.go:1036-1042 | The last non-empty DOMAIN_NAME in the user's list is the domain |
| Builder.DomainDefault | pkg/service/operator/Kind.go:1036 | cluster.local where there is none |
| Builder.DefaultsFillGaps | pkg/service/operator/Kind.go:171-213 | Defaults keep what the user gave, leave nothing empty that an enabled feature needs, and are idempotent |
| Builder.DefaultValues | pkg/service/operator/Kind.go:171-213 | What is filled in for each field that is empty, and that nothing else changes |
| Builder.KnownTypes | pkg/service/operator/operaror.go:43-70 | The types taken are those whose default is standalone or cluster |
| Builder.ClaimIsMounted | pkg/service/operator/Kind.go:700-736 | A claim is made exactly when a template and no other storage is given; it keeps the template but for a missing name and the storage requested, which is the size given, and is what the data directory mounts |
| Builder.Quiescence | pkg/service/k8s/statefulset.go:155-200 | Two builds from one spec and digest compare equal under any iteration orders, unless the claim template names no storage class, when the comparison panics |
| Builder.NoOverrideKeepsMain | pkg/util/merge/merge_podtemplate_spec.go:10-16 | Without a pod override the container is the one built |
| Builder.DigestChangeIsSeen | pkg/service/operator/Kind.go:810-817 | A changed digest is never taken for agreement |
| Builder.DigestIsAnnotated | pkg/service/operator/Kind.go:807-815 | Pods carry the digest under nacos.io/config-digest exactly if a reference is given and there is a digest, and nothing else |
| Builder.ComparedContainer | pkg/service/k8s/statefulset.go:155-176 | The container compared is the main one exactly when no override container has a smaller name |
| Builder.SidecarHidesMain | pkg/service/k8s/statefulset.go:155-176 | With a smaller-named override container, changes to the main container's environment and resources are not seen |
| StatefulSets.KeepIsAgreement | pkg/service/k8s/statefulset.go:155-200 | The verdict is to keep if and only if all compared fields agree, storage classes up to letter case |
| StatefulSets.VerdictExactly | pkg/service/k8s/statefulset.go:155-200 | Between objects with a container it is to delete if and only if the claims differ in number, in the resources of the first, or in its storage class where both name one; to update if and only if the claims agree and another compared field differs; and it panics otherwise unless all agree |
| StatefulSets.EqualFoldMeaning | pkg/service/k8s/statefulset.go:196 | Classes agree if they are the same character by character up to the case of letters |
| StatefulSets.CallLeaves | pkg/service/k8s/statefulset.go:109-133 | Where the claims agree one call leaves an object in the store, the desired one unless the stored one agreed; none if and only if the claims cannot stay |
| StatefulSets.SelfAgreement | pkg/service/k8s/statefulset.go:179-200 | An object agrees with itself if and only if it has a container and its claim names a storage class |
| StatefulSets.Convergence | pkg/service/k8s/statefulset.go:109-133 | Two successful calls reach agreement and later ones change nothing if and only if the first comparison does not crash and the desired object can be compared with itself |
| StatefulSets.NeverSettles | pkg/service/k8s/statefulset.go:179-200 | Otherwise no number of calls settles |
| StatefulSets.StatefulSetService.CreateOrUpdateStatefulSet | pkg/service/k8s/statefulset.go:109-133 | At most one write, and when; what it leaves in the store, where an object is removed only if its claims cannot stay and replaced only by the desired one if they agree; when it returns, fails and panics |
| Properties.LoadOnto | pkg/service/operator/Kind.go:932-944 | Loading on top of entries equals overlaying them with what is loaded |
| Properties.TwoNewlinesClose | pkg/service/operator/Kind.go:935-939 | Two newlines close any text, even one ending in a dangling backslash |
| Properties.CommentLineIgnored | pkg/service/operator/Kind.go:936 | A header line changes nothing |
| Kind.MergeContent | pkg/service/operator/Kind.go:932-944 | The text that is built |
| Kind.MergedConfigOverrides | pkg/service/operator/Kind.go:932-944 | Loading it gives the internal map overlaid by the user map, for all texts |
| Kind.OneNewlineIsNotEnough | pkg/service/operator/Kind.go:938 | With one newline after the internal text a dangling backslash would swallow the next line |
| Kind.BuildMergedConfigMap | pkg/service/operator/Kind.go:884-966 | The merged text, or a parameter error exactly when a source that is named cannot be read or lacks its key |
| Kind.FinalConfigLoads | pkg/service/operator/Kind.go:889-944 | What is loaded from final-config is what the text named by the internal reference loads, overlaid by what the one named by the user reference does; a nil or nameless reference names no text |
| Kind.BothConfigsLoad | pkg/service/operator/Kind.go:889-930 | With both maps there, the texts are those under the keys given, or under internal.properties and user.properties |
| Kind.FinalConfigFails | pkg/service/operator/Kind.go:891-929 | The merge fails, with a parameter error, exactly where a reference names no text |
| Kind.FinalNameMeaning | pkg/service/operator/Kind.go:946-950 | final-config has the name given, or one after the resource, which no other resource has by default |
| Servers.ServerList | pkg/service/operator/Kind.go:1043-1056 | The addresses joined by spaces; none for a cluster without replicas, where the code panics |
| Servers.ServerListRoundTrip | pkg/service/operator/Kind.go:1043-1056 | Splitting the list on spaces gives one address per replica, in order |
| Servers.LeaderOfAddress | pkg/service/operator/Check.go:85-92 | The leader parser applied to address i returns pod name i |
| Servers.LeaderOfPort | pkg/service/operator/Check.go:85-92 | And to a pod name with a port |
| Servers.AddressParts | pkg/service/operator/Kind.go:1043-1050 | An address is the pod name, the headless service, the namespace and svc, in this order between dots, then the domain with the port |
| Servers.PodNamesDistinct | pkg/service/operator/Kind.go:1046-1049 | Pod names of distinct replicas differ |
| Health.ReadyPodsExactly | pkg/service/k8s/statefulset.go:68-86 | The ready list is exactly the pods that pass the filter, with multiplicity |
| Health.GetStatefulSetReadPod | pkg/service/k8s/statefulset.go:68-86 | The filtering loop; an unreadable list counts as empty |
| Health.CheckKind | pkg/service/operator/Check.go:37-55 | When it panics and with what; it passes if and only if the StatefulSet has the replicas and at least half of them are ready |
| Health.QuorumsMeet | pkg/service/operator/Check.go:47-54 | Two passing sets out of an odd number of pods meet |
| Health.EvenQuorumsMayMiss | pkg/service/operator/Check.go:47-54 | Out of every even number two passing sets need not |
| Health.CheckServers | pkg/service/operator/Check.go:67-77 | The inner loop returns exactly when its servers are up and agree with those read before |
| Health.CheckNacos | pkg/service/operator/Check.go:57-101 | Returns exactly when every queried pod reported `replicas` servers, all up, whose leaders are empty strings followed by copies of one value; then one condition per pod in order and the last version read; else the conditions of the pods before the one at fault |
| Health.HealthyMeaning | pkg/service/operator/Check.go:62-77 | Then each pod reported the number of replicas, every server was up, and any two that name a leader name the same |
| Health.ConditionTells | pkg/service/operator/Check.go:79-97 | Each condition names its pod, the pod's node and address, and is typed leader exactly if the pod is the leader known by then |
| Health.VersionOfLast | pkg/service/operator/Check.go:76 | The version recorded is that of the last server of the last reply |
| Health.AtMostOneLeader | pkg/service/operator/Check.go:79-99 | With distinct pod names at most one is typed leader |
| Health.ExactlyOneLeader | pkg/service/operator/Check.go:79-99 | Exactly one if every server names the leader and it is a queried pod |
| Status.UpdateLastEvent | pkg/service/operator/Status.go:65-104 | The new log as a function of the old one and the report |
| Status.SyncHealthy | pkg/service/operator/Status.go:106-108 | Sets Healthy from the phase and nothing else |
| Status.HistoryCodes | pkg/service/operator/Status.go:65-104 | The codes of the unbounded history are the run-length compression of the reported codes |
| Status.LogRefinesHistory | pkg/service/operator/Status.go:63-104 | The log is a suffix of the history, all of it up to ten entries and then ten or eleven |
| Status.LogCodes | pkg/service/operator/Status.go:63-104 | The log's codes are the latest of the run-length compressed reports: all of them up to ten, then ten or eleven |
| Status.LogMeaning | pkg/service/operator/Status.go:65-104 | Adjacent codes differ, the last entry tells the last report, and a true status means code 200 if callers pass true only with it |
| Status.LogDates | pkg/service/operator/Status.go:71-101 | The last entry dates from the first report of the run of equal codes it stands for, however much of the log was dropped |
| Status.LogFlag | pkg/service/operator/Status.go:71-101 | And has the status of that report, but false in the first run |
| Postgres.RetryConverges | pkg/service/operator/PGClient.go:217-229 | However often and wherever earlier attempts were cut off, the first complete one leaves what one uninterrupted attempt leaves |
| Postgres.RotationMeaning | pkg/service/operator/PGClient.go:215-229 | All rows of the admin carry the hash and are enabled, one row where the key holds, other users as before, one admin role |
| Postgres.CutOffMeaning | pkg/service/operator/PGClient.go:217-229 | Cut off, the role is never there before the user, and no rows of others are added |
| Postgres.RecordedIsSkipped | pkg/service/operator/PGClient.go:161-173 | With the recorded status the same inputs are skipped |
| Postgres.RotatesExactly | pkg/service/operator/PGClient.go:161-173 | A secret is rotated in, with a checksum in the spec, if and only if that is not the recorded one; without, if and only if its version and checksum both differ from the recorded ones or no success is recorded |
| Postgres.NextSecretIsRotated | pkg/service/operator/PGClient.go:232-243 | After a rotation the next secret is rotated in if and only if what spec and secret say of it differs from what was recorded of the first |
| Postgres.Database.WriteAdmin | pkg/service/operator/PGClient.go:217-229 | When the statements go through, and what they leave; cut off, some prefix of them is done |
| Postgres.Database.RotateAdminPassword | pkg/service/operator/PGClient.go:150-244 | When it skips, completes and panics and with which failure; a skip or a failure to read or connect sends nothing, a panic leaves a prefix of the statements and the status as it was |
| Escaping.PassesAreSimultaneous | pkg/service/operator/PGClient.go:311-320 | The five passes equal one simultaneous map of characters |
| Escaping.UrlQueryEscape | pkg/service/operator/PGClient.go:311-320 | Computes that map |
| Escaping.EscapeHasNoDelimiter | pkg/service/operator/PGClient.go:311-320 | The output holds none of the five delimiters |
| Escaping.EscapeKeepsOthers | pkg/service/operator/PGClient.go:311-320 | Text without delimiters is left as it is |
| Escaping.EscapeRoundTrip | pkg/service/operator/PGClient.go:311-320 | Percent-decoding recovers the input if and only if it holds no percent sign |

## Where the code differs from what one might expect

- The grace period, the quorum and the comparison are modelled as the code has them: half of an even number of replicas
  passes, image, probes, command and volumes are not compared, and an unreadable pod list counts as empty.
- doc/2_CONFIG_MANAGEMENT_FEATURE.md promises that an edit of the user's ConfigMap rolls the cluster. The code drops the
  event if the listing in the watch handler fails; `MachineRollout.NoLostRollout` therefore counts a dropped event of a
  ConfigMap the resource refers to as unsettled until the next reconcile starts.
- Every completed pass stamps the current time into the event log, which changes the stored status and queues the resource
  again; `MachineSettles.PassRestsExactly` states exactly when a pass leaves it at rest, and `MachineSettles.LaterPassStores`
  that a pass in a later second never does.
- Nothing keeps final-config from being named as one of its own sources, which the operator then overwrites.
- The defaults of the Postgres section are filled in only by the fourth stage, on the object in memory, so initialisation
  in the second stage happens only where it is switched on in the stored spec.
- A function mode starts the environment again from the user's list and so drops `PREFER_HOST_MODE`.
- The container compared is the first by name, which may be a sidecar of the pod override.
- A claim template without a storage class makes the comparison panic once the resources are equal.
- The very first event of a log has status false.

## Left out

- Volumes.MergeVolume: values only; the code writes through pointers shared with the default volume, which a caller holding it would see.
- Volumes.MergeKeyToPathItems: the order of the result is arbitrary in the code and is not fixed here either.
- ContainerMerge.Containers: where mount keys collide, the order of the colliding mounts is left open.
- Builder.BuildDesired: the fields compared or digested, and the container fields merged; labels, volumes, init containers (with the database check), tolerations, affinity and the copies of the other PodSpec fields are not part of the model.
- Builder.DefaultsFillGaps: the Postgres and admin-secret defaults, which are filled in after the stages that would read them, are not part of it.
- Builder.BuildEnv: a slice appended to may share its array with the user's list in Go; lists here are values.
- StatefulSets.StatefulSetService.CreateOrUpdateStatefulSet: conflicts are by value, not by resource version; deletion is removal; owner references are always set.
- Postgres.Database.RotateAdminPassword: reading the admin secret and what precedes the first write (credentials, connection, ping) are one outcome each; statements are on rows without the constraints of the script.
- MachineMarker.MarkerSound: the initialisation script is one step without effect on the sentinel table.
- Health.CheckNacos: the reply of a pod is a parameter; HTTP and its identity header are not modelled.
- Kind.MergedConfigOverrides: how a logical line splits into key and value is a parameter of the proof; a line of a lone backslash follows the documented rules.
- Escaping.UrlQueryEscape: characters are single code units; the rest of the connection string is not modelled.
- Reconciler.NacosReconciler.ReconcileWork: users and watches act between its stages; that they do so between the requests of one stage is in `Machine` only; each status write reads the clock once.
- MachineRecovery.EveryStateSettles: the clock stands still, as every later second is stored; final-config is none of its own sources.
- Reconciler.NacosReconciler.MakeEnsure: the services, the MySQL job and the default or user-given `Config` ConfigMap are one outcome or left out; they have no part in the digest.
- JSON comparison is equality of the compared values; the digest is any function of the text; API-server defaulting and admission are not modelled, nor is the difference between nil and empty.
- Letter case of storage classes is folded for ASCII only; quantities are texts, and which of them parse is given; a nil replicas pointer does not occur.
- The merged ConfigMap is written by the operator alone and kept apart from the sources; the operator does not watch it.
- Deletion of the resource, and the read that finds none, are left out.
- The library's sort algorithm is not modelled, only that it sorts stably.
- VersionDigest, the PGInit policy (unused by the code), healing (empty) and the Scaling phase (never entered).
- Merging of tolerations, topology spread constraints, ephemeral containers, labels and string maps: the same shapes again.
- Static builders of services, jobs, probes and constants; logging.
