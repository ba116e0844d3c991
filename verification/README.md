# kidecar: verification project

A Dafny 4.11 model of the stateful parts of kidecar, with proofs. `dafny verify dfyconfig.toml` checks everything.

kidecar injects a sidecar into Kubernetes pods. Inside a pod it applies hot updates and probes HTTP endpoints; its
controller injects pods and keeps status counters. The model covers:

- **Hot-update history** (`History`, `HistoryProtocol`, `HotUpdate`, `HotUpdateRun`, `HotUpdateStuck`,
  `HotUpdateProvenance`, `Semver`, `VersionCheck`, `VersionSyntax`). All pods read, change and write one ConfigMap that maps pod key ->
  plugin type -> version -> url. `PersistentConfig` and `HotUpdatePlugin` are the source's objects, with their loops and
  in-place updates. `HistoryProtocol` is any number of clients whose Get and Update steps interleave. `HotUpdateRun` is any
  number of pods starting, restoring, serving, failing and crashing on top of it, built from the same functions the two
  classes are proved against. `HotUpdateStuck` says when a pod can restart and when none ever can again,
  `HotUpdateProvenance` where a restored version came from.
- **Probe markers** (`JsonPointer`, `InKube`). A policy list is compiled to a cached map and rendered twice: as a merge
  patch for the current pod and as a JSON Patch for another object.
- **Injection** (`Injector`, `KidecarConfigMap`, `StatusCounters`). The in-place change of a pod, the hash-guarded
  ConfigMap, and the status fields that injectors and collectors write concurrently.
- **HTTP probe** (`HttpProbe`). `Start`, its goroutines, reload and cancellation as one state machine.

Conventions. What the source gets from outside is a parameter: API answers, process lists, success of a download, kill or
store, map iteration orders, the hash function, selectors. A value of the shared ConfigMap is either YAML, given by what it
decodes to, or text that does not decode; decoding into a map replaces the named inner maps and keeps the others. The API
server accepts an Update only if its resourceVersion is the stored one. Executions inside one pod do not overlap, and the
download, load and store of one execution form one step, since they touch nothing shared.

## Where the code does less than it seems to

- Two pods can share a ConfigMap key (`History.KeySharing` says exactly when, `History.KeySharingExample` names two), so
  results are stated per key.
- The fallback merge depends on map iteration order exactly when two pods disagree on a url
  (`History.FallbackIgnoresOrder`, `History.FallbackDependsOnOrder`; an example is `History.FallbackOrderExample`).
- A version such as `v1.2.3.4` or `v01` passes the request check and is recorded, but no restart can select it
  (`VersionCheck.AcceptedButNotSelectable`). A restart can get past applying under some iteration order iff its history is
  untouched or one highest valid version has a url (`HotUpdate.RestoreCanApply`). `HotUpdateStuck.StuckIsUnrestorable` turns
  this into a condition on the ConfigMap, for pods with and without an entry of their own. A stuck key stays so while none
  of its pods serves or records and no other client writes it (`HotUpdateStuck.StuckForever`).
- One such version can stop every pod, not only the one that accepted it: a pod without an entry reads the entries of the
  others. When the first pod to start is sent `v01` and crashes, no pod sharing the ConfigMap, whatever its key, ever
  restarts while only pods write (`HotUpdateStuck.HaltByLeadingZero`, `HotUpdateStuck.HaltedForever`).
- A 200 answer says exactly that the request was well formed and the download succeeded (`HotUpdate.OkMeansDownloaded`). It
  is recorded iff the load, the store and the write of the ConfigMap succeeded as well (`HotUpdate.OkIsRecorded`); a signal
  request without a process list is answered 200 with none of them done (`HotUpdate.OkWithoutEffect`). In request mode the
  stored result text is always empty, because only signal mode sets it (`HotUpdateRun.OnlyAppliedIsPersisted`).
- MatchedPods counts the accepted injections exactly when each listed the one before; otherwise it is lower
  (`StatusCounters.MatchedExact`). A write even takes it down iff the count it listed is two or more below the current one
  (`StatusCounters.WriteLowersCount`, with a run in `StatusCounters.StaleListLowersCount`).
- The JSON Patch rendering fails when a touched annotation or label is missing, where the merge patch adds it
  (`InKube.RenderingsAgree`, for an object without annotations `InKube.MissingAnnotation`). The comment at
  `pkg/store/config.go:54` speaks of deleting annotations; no code does.
- Rewriting an existing ConfigMap that has no data or no annotations panics (`KidecarConfigMap.EnsurePanics`, for an empty one
  `KidecarConfigMap.EmptyConfigMapPanics`).
- The service-account token mount is removed from every container even when no account is injected, and
  `addVolumeMounts` has no effect.
- The reload channel of the HTTP probe has no sender in this version; the model still lets a reload happen at any time.
- The collector counts running pods as ready, where `api/v1alpha1/sidecarconfig_types.go:146` speaks of the ready condition.

## Model

| member | source | states |
|---|---|---|
| Semver.ComparePreorder | pkg/plugins/hot_update/executor.go:246 | semver comparison on arbitrary strings is a total preorder, with the invalid strings as its lowest class |
| Semver.KeyOrder | pkg/plugins/hot_update/executor.go:246 | precedence as section 11 of Semantic Versioning 2.0.0 states it, field by field and identifier by identifier, equals the lexicographic order the proofs use |
| VersionSyntax.ParseReads | pkg/plugins/hot_update/executor.go:246 | a written version (up to three numbers without leading zeros, after all three a prerelease and build metadata) reads back as those numbers in their places, zero where one is left out, and that prerelease |
| VersionSyntax.ValidIsWritten | pkg/plugins/hot_update/executor.go:246 | a string is a valid version iff it is such a written version |
| VersionSyntax.ValueOfDecimal | pkg/plugins/hot_update/executor.go:246 | a digit string denotes its number by place value: the value of the decimal form of n is n |
| VersionSyntax.DecimalOfValue | pkg/plugins/hot_update/executor.go:246 | a numeral without leading zeros is the decimal form of its value |
| VersionSyntax.CompareWritten | pkg/plugins/hot_update/executor.go:246 | written versions compare by major, then minor, then patch as numbers; of equal triples a prerelease comes before the release |
| VersionSyntax.ComparePrinted | pkg/plugins/hot_update/executor.go:246 | v<a>.<b>.<c> comes before v<d>.<e>.<f> iff (a, b, c) is numerically below (d, e, f) |
| VersionSyntax.CompareExamples | pkg/plugins/hot_update/executor.go:246 | v1.3.0 comes before v2.1.0, and v1.9.0 before v1.10.0 |
| VersionCheck.AcceptsExactlyDottedDigits | pkg/plugins/hot_update/help.go:51-54 | the request check accepts exactly "v" followed by dot-separated non-empty digit runs |
| VersionCheck.AcceptedButNotSelectable | pkg/plugins/hot_update/help.go:51-54 | an accepted version is a valid semantic version iff it has at most three components and none has a leading zero |
| VersionCheck.AcceptanceExamples | pkg/plugins/hot_update/executor.go:71 | v1.2.3.4 and v01 are accepted by the handler and invisible to the restart loop |
| History.KeySharing | pkg/info/pod.go:57-66 | two pods have the same ConfigMap key iff they are the same pod or one namespace runs into the other's name |
| History.KeySharingExample | pkg/info/pod.go:57-66 | pod a-web of namespace team and pod web of namespace team-a have one key |
| History.LeftoversAreHarmless | pkg/store/persistent.go:47-58 | the fallback loop with its reused decode target equals the clean overlay of all entries, and fails iff an entry does not decode |
| History.FallbackIsUnion | pkg/store/persistent.go:47-58 | the merged versions are exactly those some pod recorded, each with the url of the last visited pod that has it |
| History.FallbackIgnoresOrder | pkg/store/persistent.go:48-58 | when pods agree on urls every iteration order gives the same merge |
| History.FallbackDependsOnOrder | pkg/store/persistent.go:48-58 | whenever two pods disagree on a url two iteration orders give different merges |
| History.FallbackOrderExample | pkg/store/persistent.go:48-58 | two pods with different urls for v1, visited in either order: the last one decides |
| History.PersistentConfig.GetPersistenceInfo | pkg/store/persistent.go:17-62 | loads own history or the fallback, with the exact result left behind on each error path |
| History.PersistentConfig.SetPersistenceInfo | pkg/store/persistent.go:64-111 | submits the fetched object with only the result laid over the own history; succeeds iff that object exists and is accepted |
| HistoryProtocol.RunReplays | pkg/store/persistent.go:69-107 | after any interleaving the data is the initial data with exactly the accepted calls laid over it in commit order |
| HistoryProtocol.StepFrame | pkg/store/persistent.go:84-107 | each step keeps the data or commits one call, leaving every other key and every other type alone |
| HistoryProtocol.CommittedVersionsStay | pkg/store/persistent.go:91-107 | a version once committed under a key and type is in that history at every later point of every run |
| HistoryProtocol.VersionsStay | pkg/info/configmap.go:17-23 | no history ever loses a version in any interleaving, given that stale updates are rejected |
| HotUpdate.FirstInt | pkg/plugins/hot_update/executor.go:159-172 | the first field that parses as an integer is the one signalled, whatever column it is in |
| HotUpdate.FirstCandidate | pkg/plugins/hot_update/executor.go:155-174 | lines that do not name the process or have no integer field are skipped |
| HotUpdate.PrintedIntegers | pkg/plugins/hot_update/executor.go:161 | a field is an integer only if it is digits with an optional sign; the decimal form of a number is one iff the number fits in 64 bits |
| HotUpdate.TargetIsFirstPid | pkg/plugins/hot_update/executor.go:155-172 | there is a process to signal iff some line has the name and an integer field, and it is the first integer of the first such line |
| HotUpdate.LoadHotUpdateFileBySignal | pkg/plugins/hot_update/executor.go:145-176 | the nested loops signal the first integer of the first line that has the name and an integer field, and succeed iff there is one and the kill does |
| HotUpdate.ApplyEffects | pkg/plugins/hot_update/executor.go:252-281 | which of download, load and store happened, with which texts, in terms of the download, the process list, the kill and the store |
| HotUpdate.RequestEffects | pkg/plugins/hot_update/executor.go:19-53 | a request loads the new file iff it is well formed, the download succeeded and, in signal mode, a process was listed and the kill succeeded |
| HotUpdate.RestoreEffects | pkg/plugins/hot_update/executor.go:210-281 | a restore gets to recording iff it plans the origin, or its url is not empty and download, load (in signal mode with list and kill) and store succeeded |
| HotUpdate.OkMeansDownloaded | pkg/plugins/hot_update/executor.go:62-95 | status 200 iff verb, version and url are good and the download succeeded; 405, 400 and 500 for the first of these that fails |
| HotUpdate.OkIsRecorded | pkg/plugins/hot_update/executor.go:19-60 | a request answered 200 is recorded iff in signal mode a process was listed and the kill succeeded, the store succeeded, the pod's entry is readable and the Update is accepted; its history then gains exactly version and url |
| HotUpdate.OkWithoutEffect | pkg/plugins/hot_update/executor.go:30-37 | a signal request answered 200 of which nothing is loaded, stored or recorded |
| HotUpdate.SelectionIsBest | pkg/plugins/hot_update/executor.go:243-250 | for every history and iteration order the loop ends with a highest valid version and its own url, unique up to precedence, or with empty strings iff none is valid |
| HotUpdate.SelectsHighestNumbers | pkg/plugins/hot_update/executor.go:243-250 | the numbers of the selected version are at least those of every version v<a>.<b>.<c> in the history |
| HotUpdate.SelectionExample | pkg/plugins/hot_update/executor.go:243-250 | from v1.3.0 and v2.1.0 every order selects v2.1.0 with its url |
| HotUpdate.RestoreCanApply | pkg/plugins/hot_update/executor.go:220-259 | a restart can get past applying under every iteration order iff the history is untouched or has a valid version and every highest one has a url, and under some order iff it is untouched or some highest one has a url |
| HotUpdate.HotUpdatePlugin.DownloadHotUpdateFile | pkg/plugins/hot_update/executor.go:62-95 | the error paths with their status codes and the fields each has already set |
| HotUpdate.HotUpdatePlugin.HotUpdateHandle | pkg/plugins/hot_update/executor.go:19-60 | outcome, fields, status and submitted object in every branch; recorded iff answered 200, listed and killed in signal mode, stored, readable and accepted |
| HotUpdate.HotUpdatePlugin.StoreDataToConfigmap | pkg/plugins/hot_update/executor.go:193-208 | submits the version and url in hand |
| HotUpdate.HotUpdatePlugin.SelectLatest | pkg/plugins/hot_update/executor.go:243-250 | the loop's result is a best choice from the history |
| HotUpdate.HotUpdatePlugin.SetHotUpdateConfigWhenStart | pkg/plugins/hot_update/executor.go:210-288 | read, choose, apply, record: outcome, fields and submitted object in all branches; something is submitted only after the origin was planned or download, list, kill and store succeeded |
| HotUpdateRun.StepRefines | pkg/plugins/hot_update/executor.go:193-208 | every step of every pod is a step of the shared-history protocol |
| HotUpdateRun.InvRun | pkg/plugins/hot_update/plugin.go:69-92 | the run invariant, and that the ConfigMap side of each run is a protocol run |
| HotUpdateRun.OnlyAppliedIsPersisted | pkg/plugins/hot_update/executor.go:19-60 | in every run each committed pair except the origin was downloaded, loaded and stored before, in this order, in the same execution, by a step in which the download, the kill of a listed process (in signal mode) and the store succeeded |
| HotUpdateRun.EffectsHappened | pkg/plugins/hot_update/executor.go:19-53 | each effect in the trace of a run was added by one execution in which the outside world let it happen |
| HotUpdateRun.RestorePrecedesRequests | pkg/plugins/hot_update/plugin.go:72-84 | a request is committed only by a process whose restore was committed before, and its version passed the check |
| HotUpdateRun.RestartIsHighest | pkg/plugins/hot_update/executor.go:210-288 | a successful restart selects at least every version its key held when it read the ConfigMap, recorded in the run or there from the start |
| HotUpdateRun.RestartsNeverGoDown | pkg/plugins/hot_update/executor.go:210-288 | for one key, a restart that reads after another was committed never selects a lower version |
| HotUpdateRun.PodRestartsNeverGoDown | pkg/plugins/hot_update/executor.go:210-288 | the successful restarts of one pod never go down |
| HotUpdateRun.NewKeyRestoresHighest | pkg/store/persistent.go:47-58 | a restart of a key without an entry selects at least every version any key held when it read the ConfigMap |
| HotUpdateRun.UndisturbedRestart | pkg/plugins/hot_update/plugin.go:69-82 | from any state of a run a stopped pod whose history can be read and whose planned version can be applied reaches a committed restart to that version, if no other step intervenes |
| HotUpdateRun.RestartIsFixedPoint | pkg/plugins/hot_update/executor.go:210-288 | a second successful restart with no other hot-update write to the key selects an equal version and leaves the decoded history unchanged, whatever other keys and other types commit |
| HotUpdateStuck.StuckIsUnrestorable | pkg/plugins/hot_update/executor.go:210-259 | no version and url can come out of a restore iff the key is stuck: with an entry, the entry is undecodable or has nothing to select; without one, some entry is undecodable, or more than the origin is held and no highest version is held with a url |
| HotUpdateStuck.StuckSpreads | pkg/store/persistent.go:47-58 | when the only entry is stuck, every key without an entry is stuck too |
| HotUpdateStuck.StuckForever | pkg/plugins/hot_update/executor.go:210-288 | in every run, a stuck key with an entry that no pod serves keeps its value and no pod restarts with it, while no other client writes it |
| HotUpdateStuck.HaltedForever | pkg/plugins/hot_update/executor.go:210-288 | once every key is stuck and no pod serves, nothing is downloaded, recorded or served again and the ConfigMap never changes, while only pods write |
| HotUpdateStuck.UnstuckRestarts | pkg/plugins/hot_update/executor.go:210-288 | from any state of a run a stopped pod whose key is not stuck, with or without an entry, has a continuation to a committed restart |
| HotUpdateStuck.HaltIsReachable | pkg/plugins/hot_update/executor.go:71-80 | from an empty ConfigMap and any stopped pods, one accepted version that is not semantic, recorded before a crash, leaves one entry and every key stuck |
| HotUpdateStuck.HaltByLeadingZero | pkg/plugins/hot_update/executor.go:71-80 | sending v01 does it |
| HotUpdateProvenance.HeldPairs | pkg/store/persistent.go:91-107 | a history holds a pair iff the last accepted call that wrote the version wrote that url, or none did and it was there from the start |
| HotUpdateProvenance.RestartHasSource | pkg/plugins/hot_update/executor.go:210-288 | a committed restart's pair, unless the origin, is that of the last call before its read that wrote the version under one key, or of the start of the run; the key is its own when it has an entry |
| HotUpdateProvenance.RestoredWasRequested | pkg/plugins/hot_update/executor.go:19-60 | when only pods write hot-update histories, such a pair was there from the start or was accepted, downloaded, loaded, stored and recorded by a request before |
| JsonPointer.EscapeRoundTrips | pkg/store/in_kube.go:21 | decoding by section 4 of RFC 6901 recovers every key, and the encoder is injective |
| JsonPointer.EscapeHasNoSlash | pkg/store/in_kube.go:21 | an encoded key contains no slash |
| JsonPointer.PointerReadsBack | pkg/store/in_kube.go:136-148 | a generated pointer reads back as exactly three tokens, the last being the key |
| InKube.CompileKeepsLast | pkg/store/config.go:123-134 | a state has a policy iff some policy names it, and then the last such policy |
| InKube.InKubeConfig.BuildPolicyMap | pkg/store/config.go:123-134 | the loop computes the compiled map unless there is nothing to compile or it was compiled already; of the listed policies the last for each state is found afterwards, and none for other states |
| InKube.InKubeConfig.Preprocess | pkg/store/config.go:147-153 | compiles once and never again, and always leaves the listed policies, the last for each state |
| InKube.MergePatchMarks | pkg/store/in_kube.go:58-84 | the merge patch sets all annotations and labels of the last policy for the state, besides them only the configured keys, to the state itself |
| InKube.PatchOperates | pkg/store/in_kube.go:133-154 | the JSON Patch has a replace operation under its literal path for every configured key and every field of that policy |
| InKube.StoreInCurrentPod | pkg/store/in_kube.go:58-84 | fills the merge patch: configured keys first, policy maps over them |
| InKube.GeneratePatch | pkg/store/in_kube.go:133-154 | appends one replace operation per configured key and policy entry, in order |
| InKube.Store | pkg/store/in_kube.go:100-131 | what is sent where, in every combination of target, keys, policies and failing requests; each patch carries what the last listed policy for the state sets |
| InKube.RenderingsAgree | pkg/store/in_kube.go:58-154 | on every object the JSON Patch gives what the merge patch gives if all touched fields exist, and fails otherwise |
| InKube.MissingAnnotation | pkg/store/in_kube.go:133-154 | on an object without annotations the JSON Patch fails where the merge patch adds the configured one |
| InKube.MergeIsIdempotent | pkg/store/in_kube.go:86-92 | sending the merge patch again on a retry changes nothing |
| Injector.FindConfig | pkg/injector/pod.go:33-48 | config i is found iff its selectors accept the pod and every earlier config declines it; none iff all decline |
| Injector.MatchTests | pkg/injector/pod.go:50-96 | matching answers as the selectors' own tests on the labels of the pod and of its fetched namespace say, and errs otherwise |
| Injector.SelectorsDecide | pkg/injector/pod.go:33-70 | when selectors convert and the namespace can be fetched, some config is the first to accept the pod or all decline it |
| Injector.StripToken | pkg/injector/pod.go:167-178 | removes exactly the first token mount and keeps the order of the rest |
| Injector.Pod.InjectServiceAccount | pkg/injector/pod.go:150-181 | the nested loops strip one token mount per container; nothing changes when the account is missing |
| Injector.Pod.InjectPod | pkg/injector/pod.go:98-148 | outcome, ConfigMap, status value and the whole pod, in every branch |
| Injector.OnlyAcceptedPodsChange | pkg/injector/pod.go:98-148 | the pod, the ConfigMap or a status changes only if the pod is unmarked and some config is the first to accept it |
| Injector.FirstAcceptingIsUsed | pkg/injector/pod.go:98-148 | an unmarked pod gets the first accepting config, unless the account it names is missing; then nothing changes |
| Injector.DeclinedPodsStay | pkg/injector/pod.go:33-48 | when every config declines the pod nothing changes and nothing fails |
| Injector.InjectionComposes | pkg/injector/pod.go:113-132 | in the pod an injection leaves, own containers (less at most their first token mount), init containers and volumes stay as blocks in order, config additions before, kidecar's after, nothing else |
| Injector.InjectionMetadata | pkg/injector/pod.go:150-166 | in the pod an injection leaves, own annotations survive, the inject mark is set; the account is the config's iff forced, or named where the pod has none but the default, otherwise the pod's |
| Injector.InjectTwice | pkg/injector/pod.go:98-148 | a second injection finds the same config and changes neither pod nor ConfigMap nor MatchedPods |
| KidecarConfigMap.ApiServer.EnsureConfigmap | pkg/injector/configmap.go:69-129 | outcome and stored ConfigMap of one call in every branch; when it is done, on the API's answers and the stored hash |
| KidecarConfigMap.EnsureDone | pkg/injector/configmap.go:69-129 | a call is done iff the config renders, the Get answers, and a missing ConfigMap is created, or an existing one has the hash or has both maps, is fetched again and updated; it then sets the config and its hash and keeps all other data and annotations |
| KidecarConfigMap.EnsureAlone | pkg/injector/configmap.go:69-134 | from a coherent or absent ConfigMap a successful call leaves exactly the rendered config unless the stored config has its hash, a later one writes nothing, none panics, and with every request answered it succeeds |
| KidecarConfigMap.EnsurePanics | pkg/injector/configmap.go:88-98 | a call can panic iff the existing ConfigMap has a nil map and a different hash annotation |
| KidecarConfigMap.EmptyConfigMapPanics | pkg/injector/configmap.go:88-98 | a ConfigMap with neither data nor annotations makes the call panic iff the hash of the config is not the empty string |
| KidecarConfigMap.UndisturbedCall | pkg/injector/configmap.go:69-129 | a call whose steps nothing comes between does what a call running alone does, for all answers of the API, and gives up only where the API refused |
| KidecarConfigMap.AlwaysCoherent | pkg/injector/configmap.go:69-134 | under every interleaving of calls, retries and deletions the hash annotation is the hash of the config |
| KidecarConfigMap.SameConfigAgrees | pkg/injector/configmap.go:106-129 | calls that render one config leave that config once any succeeded, also past an AlreadyExists, unless the config stored at the start has its hash |
| StatusCounters.CountPods | pkg/collector/pods.go:69-76 | counts all listed pods and the running ones |
| StatusCounters.PublishedWasCounted | pkg/collector/pods.go:69-84 | in every run updatedPods and readyPods are those of the start or what one collector counted of the pods it listed |
| StatusCounters.OwnFieldsOnly | pkg/collector/pods.go:77-84 | the collector never changes matchedPods and the injector changes nothing else |
| StatusCounters.ReadyAtMostUpdated | pkg/collector/pods.go:69-84 | readyPods never exceeds updatedPods in any interleaving |
| StatusCounters.MatchedBound | pkg/injector/pod.go:135-142 | MatchedPods is at most its start plus the accepted injector writes, also across 32-bit overflow |
| StatusCounters.MatchedExact | pkg/injector/pod.go:135-142 | it equals that sum iff every accepted write had listed the write before it |
| StatusCounters.MatchedPodsOverRuns | pkg/injector/pod.go:134-142 | both, at every point of every interleaving with retries and stale lists |
| StatusCounters.WriteLowersCount | pkg/injector/pod.go:135-142 | short of overflow an injector write lowers the count iff its listed count plus one is below the current count |
| StatusCounters.StaleListLowersCount | pkg/injector/pod.go:140 | from every start, a run of four accepted writes in which the last takes the count from three above the start to one above |
| HttpProbe.CountersAgree | pkg/plugins/http_probe/plugin.go:78-113 | 0 <= activeGoroutines <= wait-group count <= endpoints in every interleaving, both zero when a round begins |
| HttpProbe.RoundIsComplete | pkg/plugins/http_probe/plugin.go:80-92 | when the spawn loop is done the status is Running, every endpoint has its one goroutine probing, none of an earlier round is left, and both counters are at the number of endpoints |
| HttpProbe.StartIsNotStuck | pkg/plugins/http_probe/plugin.go:58-113 | `Start` can always move on except while it waits for goroutines, and once its context is done it can return from the delay or from a running round, Stopped and with the round cancelled |
| HttpProbe.StoppedIsFinal | pkg/plugins/http_probe/plugin.go:105-110 | after the stop nothing is spawned and the status stays Stopped |
| HttpProbe.DrainIsNotStuck | pkg/plugins/http_probe/plugin.go:95-104 | after a cancel some goroutine can move while the wait group is not zero; at zero all have finished and the wait can end |
| HttpProbe.DrainsWithin | pkg/plugins/http_probe/plugin.go:95-143 | while a reload waits, goroutines take at most four steps per endpoint in all, and all are taken iff the wait group is at zero |
| HttpProbe.LeftoversDrain | pkg/plugins/http_probe/plugin.go:105-143 | the goroutines left when `Start` returned take at most four steps per endpoint in all, however long the run goes on, and are then finished |

## Left out

- Downloads, directories, `ps` and `kill`, HTTP serving and timers, beyond succeeding or failing (fetching an empty url always fails).
- YAML, JSON, SHA-256, template parsing, gjson and label-selector internals; null inner maps in the YAML.
- Strings are sequences of characters, not bytes.
- Overlapping hot-update requests in one pod, which share the result record without a lock.
- An Update whose answer is lost after it took effect: a failed call is taken to have written nothing.
- HotUpdate.LoadHotUpdateFileBySignal: takes the process list already split into lines and fields.
- Injector.Pod.InjectPod: does not model aliasing between the slices of the cached config and those of the pod, because sequences are values; the status write itself is modelled in StatusCounters.
- InKube.RenderingsAgree: the strategic merge patch is modelled on annotations and labels only, which is all the patch contains.
- HttpProbe.CountersAgree: `Start`, its goroutines and the status counters are steps of a state machine rather than methods of a class, because their interleaving is the point.
- KidecarConfigMap.SameConfigAgrees: says nothing about calls with different configs, because the AlreadyExists branch accepts any content.
- The controlled-by reference of the created ConfigMap, and rendering the plugin list to YAML.
- `validateConfig`, `IsValid` messages, status getters, logging and metrics: they would only add easy members.
- The Prometheus storage, whose gauge map is never created; plugin assembly, the binary plugin and the command line.
