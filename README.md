# tsuru: swarm deploy actions and the Kubernetes node-container reconciler

This project models two pieces of tsuru, the Go platform-as-a-service, and proves
properties about them.

**Swarm deploy actions** (`provision/swarm/actions.go`). A new image for an app reaches a
Docker swarm through three pipeline actions:

- `update-services` deploys every process of the new image, in ascending order of process
  name. It stops at the first failing deploy and rolls back the processes it had already
  deployed. A rolled-back process is restored to the current image when the current image
  defines it, and its service is removed otherwise.
- `update-image-in-db` appends the new image to the app's image history.
- `remove-old-services` removes the services of the processes the new image no longer
  defines. It ignores the errors of those removals.

The cluster is a `Swarm` object: the service map from (app, process) to image, the image
history, and a log of the calls made. Which calls fail is fixed up front in a set. The
actions are methods with loop invariants. Each method states its new state as a function
of the calls it makes: `Run` for the deploy and rollback loops, `AppendImage` for the image
history, and `WithoutRemoved` for the removal of stale services. Lemmas then read that state
off service by service.

**Node-container reconciler** (`provision/kubernetes/nodecontainer.go`). A node container
runs as one Kubernetes DaemonSet per pool. For each cluster, the reconciler does this:

1. It reads the existing DaemonSet and stops on any read error other than "not found".
2. It derives a node-affinity requirement from the pool filter. An exclusion list wins over
   an inclusion list. The affinity is also mirrored, JSON-encoded, into a pod-template
   annotation.
3. A placement-only pass over an existing object rewrites just the annotations and the
   affinity, or does nothing when both already match.
4. Any other pass builds the whole DaemonSet. It parses the environment (`KEY=VALUE`) and
   the binds (`src:dst[:mode]`). The built-in `big-sibling` container gets three extra
   binds. The restart policy and the privileged flag are mapped. Then the DaemonSet is
   created if it was missing and updated otherwise.

The Kubernetes API is a `KubeApi` object with one `Cluster` value per cluster client. The
node-container configuration is a `NodeContainerConfig` object whose binds the pass extends
in place. `DeployNodeContainer` hands that one object to the pass of every cluster, so each
pass starts from what the earlier passes left. `Passes` and `Outcomes` are the clusters and
errors each pass would produce from a given sequence of configurations. `Chained` says that
sequence starts at the caller's configuration and that each entry is what the previous pass
left (`NextConfig`). `Visited` says the loop reached the first `n` clusters, stopped at the
first error, left each visited cluster as its pass did, and touched no other. JSON
is an explicit encoder that is proved injective. Go's `strings.SplitN`, `sort.Strings` and
`fmt.Sprintf("%d")` are written out in `GoStrings`.

Files:

- `options.dfy`: `Option`.
- `seqs.dfy`: a sequence-prefix fact.
- `gostrings.dfy`: string order, sorting, `SplitN`, `Itoa`.
- `json.dfy`: the JSON encoder.
- `nodecontainer.dfy`: the value-level reconciler.
- `nodecontainer_deploy.dfy`: the API object, the per-cluster methods and the pass over
  every cluster.
- `swarm_actions.dfy`: the `Swarm` object and the three actions.
- `swarm_properties.dfy`: what the actions leave in the service map.
- `swarm_pipeline.dfy`: the three actions chained by a driver, and concrete runs.

## Model

| member | source | states |
|---|---|---|
| SwarmActions.Swarm.RollbackAddedProcesses | provision/swarm/actions.go:28-40 | Every listed process is attempted, in order: each gets a deploy of the current image if the current image defines it, and a removal otherwise. The call log grows by exactly those calls. A failing call does not stop the loop. The image history is unchanged. |
| SwarmActions.RollbackCall | provision/swarm/actions.go:31-35 | The rollback of a process is a deploy of the current image exactly when the current image defines the process, and a removal exactly when it does not. Either way it touches only that process's service. |
| SwarmActions.Effect | provision/swarm/actions.go:32-34 | What one `deploy` or `removeService` call does to the service map: a deploy sets that service's image, a removal deletes it, and a failing call changes nothing. `SwarmProperties.EffectAgree` shows that what it leaves at a service depends only on what was there. |
| SwarmActions.Run | provision/swarm/actions.go:28-40 | The service map after a sequence of calls, each applied in order. `RunAppend` and `RunSnoc` split a run at any point, and `SwarmProperties.RunUntouched` and `RunSingleTouch` show that a service no call names keeps its image, and that one named once ends as that call left it. |
| SwarmActions.RollbackCalls | provision/swarm/actions.go:28-40 | The calls a rollback of a list makes: one `RollbackCall` per name, in list order. |
| SwarmProperties.RollbackAt | provision/swarm/actions.go:28-40 | After a rollback of distinct processes, each process runs the current image if it defines it, or has no service if it does not. A process whose restore or remove failed keeps what it had. |
| SwarmProperties.RollbackElsewhere | provision/swarm/actions.go:28-40 | A rollback leaves every service outside its list exactly as it was. |
| SwarmPipeline.RollbackIdempotent | provision/swarm/actions.go:28-40 | Rolling back the same distinct list twice, for the same failing calls, leaves the same services as rolling it back once. |
| SwarmActions.DeployOrder | provision/swarm/actions.go:51-54 | The deploy order names exactly the processes of the new image. |
| SwarmProperties.DeployOrderDistinct | provision/swarm/actions.go:51-54 | The deploy order names no process twice. |
| SwarmActions.Enumerate | provision/swarm/actions.go:51-53 | Ranging over a map's keys lists each key exactly once, in some order. |
| GoStrings.SortStrings | provision/swarm/actions.go:54 | `sort.Strings`: the result is ascending and is a permutation of the input. |
| GoStrings.SortedKeysStrictlySorted | provision/swarm/actions.go:54 | The sorted keys of a set are strictly ascending in Go's string order. |
| GoStrings.SortedIsSortedKeys | provision/swarm/actions.go:51-54 | Any ascending permutation of a set's elements is the one sorted-keys sequence, so the deploy order does not depend on map iteration order. |
| SwarmActions.FirstFailure | provision/swarm/actions.go:55-59 | The index of the first failing call: every call before it succeeds, and it fails unless it is the end. |
| SwarmActions.DeployCalls | provision/swarm/actions.go:55-61 | The deploys of an order: one deploy of the given image per name, in order. |
| SwarmActions.ForwardCalls | provision/swarm/actions.go:44-67 | The calls Forward makes: the deploys of the sorted order up to and including the first failing one, then, after a failure, the rollback of the names deployed before it. `SwarmProperties.ForwardStopsAtFailure` reads the order off it. |
| SwarmActions.ForwardOutcome | provision/swarm/actions.go:62-66 | Forward's result and error: every sorted name and no error when no deploy fails, and otherwise no names and the failing deploy's error. |
| SwarmActions.Swarm.DeployInOrder | provision/swarm/actions.go:55-61 | Deploys the given order one process at a time and stops at the first failure. It returns the names deployed before that failure and the failing deploy's error, or no error when all succeed. It logs exactly the deploys it attempted. |
| SwarmActions.Swarm.UpdateServicesForward | provision/swarm/actions.go:44-67 | On success it returns every process name of the new image, ascending, and no error. On failure it returns a nil result and the failing deploy's error, after the rollback of the processes deployed before it. Calls and services follow that run exactly. |
| SwarmProperties.ForwardStopsAtFailure | provision/swarm/actions.go:55-65 | After a failing deploy, no call touches a process sorted after the failing one. The deploys made are those of the sorted order, up to and including the failing one. |
| SwarmProperties.ForwardSuccessState | provision/swarm/actions.go:55-66 | On success, every process of the new image runs the new image and every other service is unchanged. |
| SwarmProperties.ForwardFailureState | provision/swarm/actions.go:55-65 | On failure, each process deployed before the failing one is rolled back: current image, removed, or left on the new image if its rollback call fails. The failing process and the processes after it are unchanged, and so is every other service. |
| SwarmActions.Swarm.UpdateServicesBackward | provision/swarm/actions.go:68-72 | Backward performs the same restore-or-remove rollback, over the names Forward returned. |
| SwarmActions.Swarm.UpdateImageInDBForward | provision/swarm/actions.go:77-84 | If appending the image to the history fails: a nil result, the wrapped error, and an unchanged history. Otherwise: the previous action's result passed on unchanged, no error, and the image appended to the app's history. Services are never touched. |
| SwarmActions.AppendImage | provision/swarm/actions.go:79 | The history after an append: the app's list gains the image at its end, and the other apps' lists are unchanged. |
| SwarmActions.Swarm.RemoveOldServicesForward | provision/swarm/actions.go:89-100 | It returns a nil result and no error, whatever the removals do. It issues one removal per process in (current − new), in some order. The services left are exactly those not deleted by a successful removal. |
| SwarmActions.Swarm.RemoveAll | provision/swarm/actions.go:93-98 | One removal per name of the set, each exactly once, with errors ignored. The resulting services do not depend on the order. |
| SwarmActions.RunRemoveCalls | provision/swarm/actions.go:93-98 | Removing a list of processes, in any order, deletes exactly the services whose removal succeeds. |
| SwarmActions.WithoutRemoved | provision/swarm/actions.go:91-98 | The service map once the given processes of an app are removed: exactly the services whose removal succeeded are gone, and every other service keeps its image. |
| SwarmProperties.RemoveOldCalls | provision/swarm/actions.go:91-98 | Every removal names a process that the current image defines and the new image does not. Each such process is removed. |
| SwarmProperties.RemoveOldState | provision/swarm/actions.go:91-99 | After `remove-old-services`, a process the new image defines keeps its service. A dropped process is gone unless its removal failed. Other apps' services are untouched. |
| SwarmActions.Swarm.Deploy | provision/swarm/actions.go:56 | The call `deploy(app, process, image)`: it is logged, and sets the service's image unless it fails. It returns an error exactly when it fails. |
| SwarmActions.Swarm.RemoveService | provision/swarm/actions.go:94 | The call `removeService(app, process)`: it is logged, and deletes the service unless it fails. It returns an error exactly when it fails. |
| SwarmActions.Swarm.AppendAppImageName | provision/swarm/actions.go:79 | The call `image.AppendAppImageName`: it is logged, and appends to the history unless it fails. It returns an error exactly when it fails. |
| SwarmPipeline.DeployPipeline | provision/swarm/actions.go:42-100 | The three actions chained under the assumed engine semantics. The error is the first failing Forward's error. When `update-image-in-db` fails, `update-services` Backward has run. The calls, services and history are stated for each of the three outcomes. |
| SwarmPipeline.SuccessRunsNewImage | provision/swarm/actions.go:42-100 | Suppose the app ran the current image and no removal of a dropped process fails. Then after a successful run the app runs exactly the new image's processes, all on the new image, and other apps are untouched. |
| SwarmPipeline.FailedDeployRestores | provision/swarm/actions.go:55-65 | Suppose the app ran the current image and no rollback call fails. Then a failing deploy leaves the services exactly as they were. |
| SwarmPipeline.FailedAppendRestores | provision/swarm/actions.go:68-84 | Under the same conditions, a failing history append leaves the services exactly as they were, through Backward. |
| SwarmPipeline.ScenarioAddProcessOutcome | provision/swarm/actions.go:42-100 | Adding a process to an app with no failing call succeeds with nothing to remove. |
| SwarmPipeline.ScenarioAddProcessState | provision/swarm/actions.go:42-100 | Adding a process: both processes end on the new image. |
| SwarmPipeline.ScenarioDropProcessOutcome | provision/swarm/actions.go:87-100 | Dropping a process whose removal fails still succeeds. |
| SwarmPipeline.ScenarioDropProcessState | provision/swarm/actions.go:87-100 | Dropping a process whose removal fails: the kept process is on the new image, and the dropped one still runs the old image. |
| SwarmPipeline.ScenarioDeployFailsOutcome | provision/swarm/actions.go:44-67 | When the second deploy fails, that deploy's error is returned. The first process was deployed and then restored. |
| SwarmPipeline.ScenarioDeployFailsState | provision/swarm/actions.go:44-67 | When the second deploy fails, the services and the history are exactly as before. |
| NodeContainer.NoClusterIsSuccess | provision/kubernetes/nodecontainer.go:35-38 | "No cluster" becomes success, and any other outcome, error or not, is passed on unchanged. |
| NodeContainerDeploy.DeployNodeContainer | provision/kubernetes/nodecontainer.go:31-39 | With no cluster, the result is success and nothing changes. Otherwise the clusters are visited in order. Each pass is made from the configuration the earlier passes left in the shared object, starting from the caller's. The visit stops at the first error, which is returned. Each visited cluster holds its pass's result, the unvisited clusters are untouched, and the object holds what the last pass left. |
| NodeContainerDeploy.ForEachCluster | provision/kubernetes/nodecontainer.go:32-34 | "No cluster" exactly when there are none, and then nothing changes. Otherwise the per-cluster passes run in order, each from the configuration the previous one left, up to and including the first failing one. That pass's error is returned. With no error, every cluster was visited. |
| NodeContainerDeploy.NextCluster | provision/kubernetes/nodecontainer.go:32-34 | One more pass of the loop: cluster `i` gets its pass from the current configuration, and the bookkeeping now covers `i + 1` clusters. |
| NodeContainerDeploy.ChainFrom | provision/kubernetes/nodecontainer.go:106-112 | From any starting configuration, there is a sequence of configurations the as-written passes go through, one per cluster plus the final one. |
| NodeContainerDeploy.ChainUnique | provision/kubernetes/nodecontainer.go:106-112 | The starting configuration determines that whole sequence. |
| NodeContainerDeploy.WithExtraBindsStep | provision/kubernetes/nodecontainer.go:106-112 | A pass adds one more copy of the three extra binds to the big-sibling configuration exactly when it builds in full, and leaves any other configuration alone. |
| NodeContainerDeploy.ChainBinds | provision/kubernetes/nodecontainer.go:106-112 | After `n` as-written passes, the big-sibling configuration holds its own binds followed by one copy of the extras per full pass so far. Other configurations never change. |
| NodeContainerDeploy.SecondClusterMountsLogTwice | provision/kubernetes/nodecontainer.go:106-134 | When the first two passes both build in full, the second cluster's pass writes one DaemonSet with one container. It has six more mounts than the configured binds, and `/var/log` is mounted at two of them. |
| NodeContainerDeploy.SecondClusterAfterLoop | provision/kubernetes/nodecontainer.go:31-39 | Once the first cluster's pass succeeded, the loop reached the second cluster, which holds that doubled-mount DaemonSet. |
| NodeContainerDeploy.LookupIn | provision/kubernetes/nodecontainer.go:43-49 | What reading a DaemonSet on a cluster gives: a read failure, the stored object, or not-found. `KubeApi.Get` returns it. |
| NodeContainerDeploy.Apply | provision/kubernetes/nodecontainer.go:192-197 | The cluster after an action's write: logged, and stored unless it fails. `ApplyEffect` states this. |
| NodeContainerDeploy.Plan | provision/kubernetes/nodecontainer.go:41-198 | The action the per-cluster pass decides on, from that cluster's read and `Decide`. |
| NodeContainerDeploy.Pass | provision/kubernetes/nodecontainer.go:41-198 | The cluster after the per-cluster pass. `DeployNodeContainerForCluster` and its `Fixed` variant leave exactly this state. |
| NodeContainerDeploy.Outcome | provision/kubernetes/nodecontainer.go:41-198 | The error the per-cluster pass returns: the read, update or create error, or none. `DeployNodeContainerForCluster` returns exactly this. |
| NodeContainerDeploy.NextConfig | provision/kubernetes/nodecontainer.go:106-112 | The configuration a pass leaves in the caller's object: the extra binds appended after a full big-sibling build, otherwise unchanged. `WithExtraBindsStep` and `ChainBinds` count the appended copies. |
| NodeContainerDeploy.KubeApi.Get | provision/kubernetes/nodecontainer.go:43 | Reading a DaemonSet yields the stored object, not-found, or a read failure, from that cluster's state. |
| NodeContainerDeploy.KubeApi.Update | provision/kubernetes/nodecontainer.go:193 | An update is logged on its cluster only. It stores the object unless it fails, and returns an error exactly when it fails. |
| NodeContainerDeploy.KubeApi.Create | provision/kubernetes/nodecontainer.go:195 | A create is logged on its cluster only. It stores the object unless it fails, and returns an error exactly when it fails. |
| NodeContainerDeploy.ApplyEffect | provision/kubernetes/nodecontainer.go:192-197 | An action logs exactly its own write, at most one. A write with no error leaves its object stored. A failing one changes no object. |
| NodeContainerDeploy.ReadAndPlace | provision/kubernetes/nodecontainer.go:42-88 | A read error ends the pass with that error and no write. A placement-only pass over an existing object ends with no write or one placement update. Otherwise the pass continues to a full build, having written nothing. |
| NodeContainerDeploy.WriteFull | provision/kubernetes/nodecontainer.go:96-197 | The DaemonSet built from the parsed environment and the given binds. It is updated when it was found and created otherwise, on that cluster only. |
| NodeContainerDeploy.BuildEnvVars | provision/kubernetes/nodecontainer.go:96-103 | A buffer of `len(env)` variables, filled entry by entry, that equals the parse of each entry. |
| NodeContainerDeploy.BuildVolumes | provision/kubernetes/nodecontainer.go:113-134 | One volume and one mount per bind, in bind order, each the parse of its bind. |
| NodeContainerDeploy.DeployNodeContainerForCluster | provision/kubernetes/nodecontainer.go:41-198 | The per-cluster pass as written. It writes what the decision calls for, on that cluster only, and returns its error. After a full build of the big-sibling container, the caller's configuration object has the three extra binds appended. Otherwise the object is unchanged. |
| NodeContainerDeploy.TwoClustersAsWritten | provision/kubernetes/nodecontainer.go:31-39 | `DeployNodeContainer` as written, over clusters whose first two both get a full big-sibling pass. When the first pass succeeds, the second cluster's DaemonSet has six more mounts than the configured binds, and `/var/log` is mounted at two of them. |
| NodeContainerDeploy.DeployNodeContainerForClusterFixed | provision/kubernetes/nodecontainer.go:41-198 | The same pass with the extra binds applied to a local copy. The cluster gets the pass computed from the caller's configuration, and the configuration object is not written. |
| NodeContainerDeploy.NextClusterFixed | provision/kubernetes/nodecontainer.go:32-34 | One more pass of the corrected loop, made from the caller's unchanged configuration. |
| NodeContainerDeploy.ForEachClusterFixed | provision/kubernetes/nodecontainer.go:32-34 | The corrected visit: "no cluster" exactly when there are none. Otherwise every pass, up to and including the first failing one, is made from the caller's configuration, and that pass's error is returned. |
| NodeContainerDeploy.DeployNodeContainerFixed | provision/kubernetes/nodecontainer.go:31-39 | The corrected `DeployNodeContainer`: success with no cluster. Otherwise each visited cluster holds the pass its own state calls for, from the one unchanged configuration, up to the first error, which is returned. |
| NodeContainer.SelectorRequirement | provision/kubernetes/nodecontainer.go:50-59 | The requirement on the pool label: NotIn over the exclusions when there are any, else In over the inclusions. `PlacementAdmitsFilteredPools` shows which nodes it admits. |
| NodeContainer.AffinityFor | provision/kubernetes/nodecontainer.go:62-70 | Required node affinity with one term holding that one requirement. |
| NodeContainer.Marshal | provision/kubernetes/nodecontainer.go:73 | The JSON text of an affinity, with Go's field names and omitted empty fields. `AffinityRoundTrip` decodes it back, and `MarshalInjective` shows different affinities give different text. |
| NodeContainer.PlacementFor | provision/kubernetes/nodecontainer.go:50-78 | There is an affinity exactly when the selector has values. The affinity holds the single requirement: NotIn over the exclusions if there are any, else In over the inclusions. Then the annotations hold exactly the affinity's JSON under the affinity key. With no affinity, the annotations are empty. |
| NodeContainer.PlacementAdmitsFilteredPools | provision/kubernetes/nodecontainer.go:50-71 | The derived affinity admits a node exactly when the pool filter keeps the node's pool. Exclusion keeps every pool but the listed ones, including unlabeled nodes. Inclusion keeps only the listed pools. With neither, every node is kept. |
| NodeContainer.AffinityRoundTrip | provision/kubernetes/nodecontainer.go:72-77 | Decoding an affinity's JSON gives the affinity back. |
| NodeContainer.MarshalInjective | provision/kubernetes/nodecontainer.go:73 | Different affinities marshal to different strings. |
| Json.SerInjective | provision/kubernetes/nodecontainer.go:73 | Different JSON values encode differently. |
| NodeContainer.AnnotationDeterminesPlacement | provision/kubernetes/nodecontainer.go:60-78 | Two filters with the same annotations yield the same affinity. |
| NodeContainer.WithPlacement | provision/kubernetes/nodecontainer.go:84-85 | The object with its template annotations and affinity replaced. `WithPlacementOnlyPlacement` shows it sets exactly those two fields. |
| NodeContainer.Decide | provision/kubernetes/nodecontainer.go:43-196 | A read failure aborts. Not-found means create. Found means update. A full build happens on not-found, or on found when the pass is not placement-only. A placement-only pass over an existing object skips exactly when its annotations and affinity already match. Otherwise it issues one update of that object with the two fields replaced. |
| NodeContainer.PlacementConverges | provision/kubernetes/nodecontainer.go:79-88 | A placement-only pass over any object a pass just wrote issues no write (treating a nil and an empty annotation map as equal). |
| NodeContainer.PlacementUpdateKeepsTheRest | provision/kubernetes/nodecontainer.go:84-86 | A placement-only update changes the annotations and the affinity, and nothing else of the object read. |
| NodeContainer.WithPlacementOnlyPlacement | provision/kubernetes/nodecontainer.go:84-85 | Replacing the placement sets it. Putting the old placement back restores the object. |
| NodeContainer.ParseEnvVar | provision/kubernetes/nodecontainer.go:98-102 | One `KEY=VALUE` entry split at its first `=`. `ParseEnvVarShape` and `EnvVarRoundTrip` state the split. |
| NodeContainer.EnvVars | provision/kubernetes/nodecontainer.go:96-103 | The environment parsed entry by entry, in order. `NodeContainerDeploy.BuildEnvVars` fills its buffer to equal it. |
| NodeContainer.ParseEnvVarShape | provision/kubernetes/nodecontainer.go:98-102 | The name is the text before the first `=` and the value everything after it. An entry without `=` is all name, with an empty value. |
| NodeContainer.EnvVarRoundTrip | provision/kubernetes/nodecontainer.go:98-102 | Parsing `name=value` gives back the name and the value whenever the name has no `=`. |
| GoStrings.SplitTwo | provision/kubernetes/nodecontainer.go:98 | The first piece of `SplitN(s, "=", 2)` holds no separator. Without a separator the result is `[s]`. |
| GoStrings.SplitNJoin | provision/kubernetes/nodecontainer.go:114 | Joining the pieces of `SplitN` with the separator gives the input back. |
| NodeContainer.VolumeNameInjective | provision/kubernetes/nodecontainer.go:116 | `volume-i` names differ for different i. |
| NodeContainer.ParseBind | provision/kubernetes/nodecontainer.go:114-131 | The volume and mount of the bind at position `i`, from `SplitN(b, ":", 3)`. `ParseBindSource`, `ParseBindPair`, `ParseBindMode` and `ParseBindShape` state what each shape gives. |
| NodeContainer.ParseBindSource | provision/kubernetes/nodecontainer.go:114-131 | A bind `src` mounts nothing: host path `src`, empty mount path, writable. |
| NodeContainer.ParseBindPair | provision/kubernetes/nodecontainer.go:114-131 | A bind `src:dst` is a writable mount of `src` at `dst`. |
| NodeContainer.ParseBindMode | provision/kubernetes/nodecontainer.go:114-131 | A bind `src:dst:mode` is read-only exactly when mode is `ro`. |
| NodeContainer.ParseBindShape | provision/kubernetes/nodecontainer.go:114-131 | Every bind string is `src`, `src:dst` or `src:dst:mode` for the parsed host and mount paths, with read-only exactly when mode is `ro`. |
| NodeContainer.Volumes | provision/kubernetes/nodecontainer.go:113-134 | The volumes of the binds, one per bind in order. `VolumesPaired` pairs them with the mounts. |
| NodeContainer.Mounts | provision/kubernetes/nodecontainer.go:113-134 | The mounts of the binds, one per bind in order, each naming the volume at its position (`VolumesPaired`). |
| NodeContainer.VolumesPaired | provision/kubernetes/nodecontainer.go:113-134 | There is one volume and one mount per bind. The mount at each position names the volume there, and volume names are distinct. |
| NodeContainer.BindsFor | provision/kubernetes/nodecontainer.go:106-112 | The binds a full pass mounts: for the big-sibling container the configured ones followed by the three extras, otherwise the configured ones. `LogBindParsed` and `RepeatedBigSiblingBindsDuplicateMount` are about these extras. |
| NodeContainer.LogBindParsed | provision/kubernetes/nodecontainer.go:108 | The first big-sibling bind mounts `/var/log`, writable. |
| NodeContainer.RepeatedBigSiblingBindsDuplicateMount | provision/kubernetes/nodecontainer.go:106-112 | Appending the extra binds to a list that already holds them mounts `/var/log` at two positions. |
| NodeContainer.SecurityContextFor | provision/kubernetes/nodecontainer.go:135-141 | There is a security context exactly for privileged containers, and it has Privileged set to true. |
| NodeContainer.RestartPolicyFor | provision/kubernetes/nodecontainer.go:142-148 | The Kubernetes restart policy for a docker policy name. `RestartPolicyMapping` states the mapping. |
| NodeContainer.RestartPolicyMapping | provision/kubernetes/nodecontainer.go:142-148 | The policy is OnFailure exactly for `on-failure`, Never exactly for `no`, and Always for every other name. The mapping agrees with the docker names. |
| NodeContainer.AssembleDaemonSet | provision/kubernetes/nodecontainer.go:150-191 | The DaemonSet literal from the target, the configuration and the parsed environment, volumes and mounts. `FullDaemonSet` and `FullDaemonSetFields` state its fields. |
| NodeContainer.FullDaemonSet | provision/kubernetes/nodecontainer.go:150-191 | The built DaemonSet has the filter's placement and one container. The container's environment is the parsed env. Its volumes and mounts are the parsed binds, with the big-sibling extras for that container. |
| NodeContainer.FullDaemonSetFields | provision/kubernetes/nodecontainer.go:150-191 | The built DaemonSet has the target's name, the given namespace, the target's selector and labels, and a `RollingUpdate` strategy with at most `20%` unavailable. The restart policy is OnFailure for `on-failure`, Never for `no` and Always otherwise. Host networking is on exactly for network mode `host`. The container has the configured name, image, entrypoint as command, cmd as args, working directory and tty. It has a privileged security context exactly when the configuration is privileged. |

## Left out

- Logging (`log.Errorf`) is not modelled. Those errors are only dropped, as in the source.
- The action engine that runs pipelines is not part of this model. `SwarmPipeline.DeployPipeline` assumes its usual semantics: actions run in order, and when a Forward fails, the Backward of every earlier successful action runs in reverse order.
- `forEachCluster` is not part of this model. `NodeContainerDeploy.ForEachCluster` assumes a sequential visit that stops at the first error, and "no cluster" when there is none.
- The internals of `deploy`, `removeService` and `image.AppendAppImageName` are not part of this model. They are the methods `Swarm.Deploy`, `Swarm.RemoveService` and `Swarm.AppendAppImageName`: which calls fail is an input set, and a failing call changes nothing.
- The Kubernetes client is not part of this model. `KubeApi` holds per-cluster state with input sets of failing reads, updates and creates. A failing write changes no object. A `clusterClient` is an index into `KubeApi.clusters`.
- The values produced outside the two files are inputs (`Target`, `ContainerConfig.image`): `daemonSetName(config.Name, pool)`, `provision.NodeContainerLabels` (labels and selector), `provision.LabelNodePool` and `config.Image()`.
- The value of `nodecontainer.BsDefaultName` is not in the modelled files. It is taken to be `big-sibling`.
- `errors.WithStack` is modelled as the bare error (it keeps nil as nil). `errors.Wrap(err, "")` is the constructor `Wrapped`.
- The iteration order of Go maps and `set.Set` is a method (`Enumerate`) that lists each key once in an unspecified order. The map itself is a `set` of keys.
- Go's `sort.Strings` compares bytes. The model compares code points, which gives the same order for valid UTF-8.
- The error branch of `json.Marshal` (nodecontainer.go:74-76) is not modelled: with these values `json.Marshal` cannot fail.
- `Json.Ser` escapes only `"` and `\`. Go also escapes control and HTML characters, so the annotation text can differ from Go's for pool names holding those. Affinity fields other than node affinity are not modelled.
- Go's distinction between a nil and an empty slice or map is not modelled. Neither are the JSON `null`-versus-omitted distinctions that follow from it.
- NodeContainer.Decide: treats a nil and an empty annotation map as equal. `reflect.DeepEqual` does not: with a filter that selects no pool, an existing object without annotations is compared against an empty map. The source then issues an update that changes nothing, while the model skips.
- NodeContainer.PlacementConverges: holds only under that nil-equals-empty reading. In the source, with a filter that selects no pool, every placement-only pass over the object a full pass wrote issues another update, so placement-only passes do not converge there.
- The Backward type assertion on `ctx.FWResult` (actions.go:70) is not modelled. `UpdateServicesBackward` takes the names directly.
- `ensureNodeContainers` (nodecontainer.go:200-209) and `provision/docker/docker.go` are not part of this model.
- DaemonSet fields that the reconciler does not set are not modelled, nor are Kubernetes' own validation rules.

## Findings

| source | as written | input that shows it | evidently intended | confidence | as-written member | corrected member |
|---|---|---|---|---|---|---|
| provision/kubernetes/nodecontainer.go:106-112 | For the `big-sibling` container, the three extra binds are appended to `config.HostConfig.Binds`, which is the caller's configuration. `forEachCluster` hands that same configuration to every cluster's pass. | Two clusters, both not-found, and config name `big-sibling` with binds `[]`. The second cluster's DaemonSet gets six binds, and `/var/log` is mounted by `volume-0` and `volume-3`. Kubernetes rejects a container with duplicate mount paths. `TwoClustersAsWritten` runs the as-written `DeployNodeContainer` loop and shows this, through `NodeContainerDeploy.SecondClusterMountsLogTwice` and `NodeContainer.RepeatedBigSiblingBindsDuplicateMount`. | The extra binds are added to a copy, so each pass sees the configured binds plus the three extras exactly once. | not executed | NodeContainerDeploy.TwoClustersAsWritten | NodeContainerDeploy.DeployNodeContainerFixed |
