# Picodata operator: a model of its reconcile protocol

The operator turns a `PicoclusterDB` resource into ConfigMaps, Services, StatefulSets and Ingresses, one
set per tier, and installs plugins through SQL statements on the running cluster. It is level-triggered:
each pass reads state, issues API and SQL commands of which any may fail, and leaves the rest to the next
pass. This project models that protocol as a step machine with a fault at every call and proves what
holds over all its runs, what one pass without faults repairs, and when there is nothing left to do.

## How it is modelled

- **World** (`Machine.dfy`): an object store (key to labels, patched fields, creation-only fields), the
  plugin table (version to enabled flag, migrated flag, migration context, service bindings) and the
  cluster's status. A `Command` is one API write or SQL statement; `Accepts` and `Apply` give its meaning.
  ADD SERVICE, SET and MIGRATE are repeatable; services show up only after MIGRATE; the database refuses
  creating what exists, changing what does not, enabling what is not migrated and dropping what is enabled.
- **Faults**: every call ends as `Done`, `Lost` (no effect, error) or `DoneButReportedFailed` (effect and
  error). A crash is a run whose remaining calls of that pass are lost. List orders, map iteration orders,
  ready reports, clock values, the letter case the database stores tier names in and the checksum function
  are parameters collected in `Env`; theorems hold for all of them.
- **Protocol** (`Protocol.dfy`): each reconciler routine as a function from the session it starts in to the
  session it ends in. A session that is no longer `ok` is passed on unchanged, which is the code's early
  return. `Run` strings passes together, each under its own spec.
- **Reconciler** (`Reconciler.dfy`): the same routines as the code has them, a class whose methods update
  the world in loops and return early, each proved equal to its protocol function. `RunFresh` ties a whole
  imperative run to the histories of the theorems.
- **Builders** (`Names.dfy`, `Listeners.dfy`, `Builders.dfy`): names, labels, ports, env, affinity and the
  config fields that other parts must agree with. `Built(e)` says that the desired objects the protocol
  submits are the ones the builders make. `KeysBuilt(e)` and `ChecksumsBuilt(e)`, which follow from it
  (`Protocol.BuiltKeys`, `TierTheorems.BuiltChecksums`), are all that most protocol proofs need.
  `RunTheorems.SomeEnvironment` and `RunTheorems.SomeRun` show that the theorems have something to speak
  about, for any plan of faults.

- **Pods** (`Peer.dfy`, `Shell.dfy`, `InitContainer.dfy`, `Yaml.dfy`): what a pod makes of its template. Variables
  are resolved and expanded in order; the text of the init script is split into words and run as a `cp` or
  `sed` command on a file; the config file is read as nested mappings, line by line.

The proofs: `Invariants`, `Safety`, `PluginEffects`, `PluginSafety`, `Runs`, `RunTheorems`, `Creation` (safety
of faulty runs, and what objects are created with); `TierConvergence`, `TierTheorems`, `PluginConvergence`,
`CrossTier`, `Links`, `Passes`, `Quiescence`, `Recovery`, `Contexts`, `Failures`, `FailedPass`,
`SharedTableExample` (what passes achieve, where they stop, what they leave); `Readiness`, `StatusHistory`,
`StatusWrites` (status); `Sed`, `Lines`, `Substitution`, `SingleUnderscores`, `PortAgreement`, `TopologyText`,
`ConfigReads`, `Scheduling`, `PodVariables`, `Deployment` (builders); `Stuck` (loop unrolling).

`TierTheorems.AllCompatible` says that the tiers of a spec get along: an object that two tiers would submit
under one name is the same for both, and no replicaset of one is beyond the size of another of its name. For
tiers with distinct names that means that no client Service has the name of an interconnect Service
(`TierTheorems.DistinctNamesCompatibleIff`), which only few cluster names make possible at all
(`Names.ServicesClashIff`).

## Where documentation and code disagree

The model follows the code.

- `README.md:169` of the repository puts SET before ADD SERVICE; the code binds the declared services
  first (`internal/controller/plugin.go:108-128`).
- `docs/adr/2026-05-04-plugin-management.md:108-120` says service names come from the database and
  `services` is only needed for ports; the code also binds `spec.services`.
- `docs/adr/2026-05-06-pod-scheduling.md:20-28` describes one automatic anti-affinity term per replicaset
  next to the user's rules. Because the user's PodAntiAffinity is shared, later replicasets also carry the
  terms of all earlier ones (`Scheduling.AsDocumentedIff`). That document's line 44 exempts tiers with
  replication factor 1, the code does not.
- The status lists every declared plugin as enabled. If a tier declares a name with two versions, the
  earlier one is dropped in the same pass (`CrossTier.ReportIsTrueIffConsistent`).

## Model

| member | source | states |
|---|---|---|
| RunTheorems.InstallSafety | internal/controller/plugin.go:84-170 | In any run with any faults, whenever ENABLE is issued: the version was created on the way (or was there from the start); directly before, in this order, its declared services were bound to the enabling tier, every context key was set to that tier's value, it was migrated, and each service it then showed was bound; and all of it is in force |
| RunTheorems.EnabledIsInstalled | internal/controller/plugin.go:105-163 | In every world of every faulty run, each enabled version is migrated and, for some tier of some spec, has all declared services bound, its whole context given and every shown service bound |
| RunTheorems.NothingRefused | internal/controller/plugin.go:96-228 | No run ever issues a command that API server or database must refuse: no double create, no patch or drop of the absent, no ENABLE before MIGRATE, no DROP while enabled |
| RunTheorems.DependenciesFirst | internal/controller/picoclusterdb_controller.go:117-154 | In every world of every faulty run, a StatefulSet of a tier exists only together with the tier's ConfigMap, interconnect Service and client Service |
| RunTheorems.DeletesAreSafe | internal/controller/picoclusterdb_controller.go:146-205 | In any faulty run and list order, a delete hits only an index above Replicas of its own tier, and only while all of 1..Replicas exist |
| RunTheorems.IngressComesLast | internal/controller/picoclusterdb_controller.go:146-171 | In any faulty run, whenever an Ingress is created or patched, the tier's ConfigMap, both Services and all of 1..Replicas exist and no StatefulSet of the tier is beyond Replicas |
| RunTheorems.ReplicasetStays | internal/controller/picoclusterdb_controller.go:146-203 | A replicaset whose index is in range under every spec of the run, once present, is present in every later world |
| RunTheorems.FixedForLife | internal/controller/picoclusterdb_controller.go:211-273 | Creation-only fields never change while the object exists, through any passes and faults |
| RunTheorems.ForeignObjectsUntouched | internal/controller/picoclusterdb_controller.go:112-205 | An object that no tier of any spec could have is never created, changed or deleted |
| Creation.CreatedAsWanted | internal/controller/picoclusterdb_controller.go:211-273 | Every create of every faulty run carries the whole content (labels, patched and creation-only fields) that a tier of the spec of that pass wants under that key |
| Creation.PatchedAsWanted | internal/controller/picoclusterdb_controller.go:211-273 | Every patch carries the labels and patched fields that tier wants, and the creation-only fields that are stored |
| Creation.SetsAreComplete | internal/controller/statefulset.go:298-325 | In every world of every faulty run, a StatefulSet that was not there at the start is one of a tier of some spec, with the selector of its own labels, that tier's interconnect Service as serviceName and that tier's claims |
| Creation.ServicesAreComplete | internal/controller/service.go:74-106 | And a Service is a headless interconnect Service, or a client Service of the type its spec gives, ClusterIP if it gives none |
| Runs.RunIsSafe | internal/controller/picoclusterdb_controller.go:57-109 | Any number of passes under changing specs and any faults: every command was justified where it was issued, every ENABLE came right after its full script, and ownership, dependency order and soundness of enabled versions hold in every world |
| Invariants.JustifiedKeepsInv | internal/controller/picoclusterdb_controller.go:112-205 | One justified command keeps ownership of labelled StatefulSets, dependency order and soundness of enabled versions |
| Safety.ListedAreOwn | internal/controller/picoclusterdb_controller.go:181-187 | What a tier's label selector finds are that tier's own replicasets under their own names |
| PluginSafety.InstallStepJustified | internal/controller/plugin.go:108-136 | After any successful prefix of the install script the next statement finds what it needs: services bound before SET, context given before MIGRATE |
| PluginEffects.RunAllGrows | internal/controller/plugin.go:108-153 | A successful script leaves every one of its statements in force at its end, undoes nothing and touches no other version |
| TierConvergence.SuccessMeansTarget | internal/controller/picoclusterdb_controller.go:112-273 | A tier reconciliation that reports success, from any store and under any plan of faults, has exactly reached its target: desired objects created or patched with creation-only fields kept, extra replicasets gone, all else untouched |
| TierTheorems.SuccessStores | internal/controller/picoclusterdb_controller.go:211-273 | After success a wanted object that was not in the store is stored exactly as wanted, creation-only fields included; one that was has the wanted labels and patched fields and its own creation-only fields |
| TierTheorems.ReplicasStored | internal/controller/statefulset.go:76-77 | Each stored replicaset 1..Replicas then asks for ReplicationFactor pods |
| TierTheorems.PodsStored | internal/controller/statefulset.go:76-77 | All together they ask for Replicas times ReplicationFactor |
| TierConvergence.TierSucceeds | internal/controller/picoclusterdb_controller.go:112-174 | Without faults it reports success |
| TierTheorems.SuccessMeansExactSets | internal/controller/picoclusterdb_controller.go:146-205 | After success the tier's selector finds exactly the StatefulSets with indices 1..Replicas |
| TierTheorems.OtherTierUntouched | internal/controller/picoclusterdb_controller.go:112-205 | A tier reconciliation leaves every object alone that the tier could not have |
| TierTheorems.NoSharedKeyIff | internal/controller/service.go:31-38 | Two tiers have no possible object in common if and only if their names differ and neither's client Service has the name of the other's interconnect Service |
| TierTheorems.DistinctNamesCompatibleIff | internal/controller/service.go:64-150 | Tiers with distinct names get along if and only if no Service names clash: the interconnect Service has two ports, the client Service at least three |
| TierTheorems.ChecksumMatchesConfig | internal/controller/statefulset.go:80-84 | Each replicaset's checksum annotation is that of the config stored in the tier's ConfigMap |
| TierTheorems.ReplicasetLabelsMatch | internal/controller/service.go:53-57 | The labels of one replicaset match the selector of another if and only if tier and index are the same |
| TierTheorems.SelectorsPartition | internal/controller/service.go:42-57 | Both Services of a tier select exactly the tier's pods, a StatefulSet exactly its own, and its serviceName is its tier's interconnect Service |
| PluginConvergence.TierPluginsConverge | internal/controller/plugin.go:36-80 | From any plugin table, one pass without faults ends with exactly the wanted versions installed, all enabled, every shown service bound ignoring case to the tier; bindings to other tiers and contexts of enabled versions are kept; nothing is issued if that was the state already |
| PluginConvergence.PluginDone | internal/controller/plugin.go:84-170 | A plugin pass that reports success makes its version healthy for the tier, touches no other version, adds only bindings to an enabled one, and issues nothing if it was healthy |
| PluginConvergence.DesiredIffConsistent | internal/controller/plugin.go:181-184 | The last-declaration-wins map keeps exactly the declared versions if and only if no name is declared with two versions |
| CrossTier.DeclaredTableIffConsistent | internal/controller/plugin.go:65-80 | From any table a fault-free pass leaves exactly the declared versions if and only if no name is declared with two versions |
| CrossTier.ReportIsTrueIffConsistent | internal/controller/plugin.go:65-79 | The reported statuses are true of the table after a fault-free pass exactly under the same condition |
| CrossTier.SuccessMeansServed | internal/controller/plugin.go:65-80 | Under any faults, a pass that reports success has every wanted version enabled and serving the tier, even if dropping failed |
| Quiescence.LastServedRules | internal/controller/picoclusterdb_controller.go:75-105 | After a fault-free pass from any world, the one plugin table is exactly what the last ready tier with plugins wants, enabled and serving that tier |
| Quiescence.AllServedAlike | internal/controller/picoclusterdb_controller.go:75-105 | If all ready tiers with plugins want the same versions, the table serves every one of them with every service |
| Quiescence.QuietPassIff | internal/controller/picoclusterdb_controller.go:57-109 | A fault-free pass issues no SQL statement exactly when every tier whose plugin pass runs finds the table to be its own and declares no name with two versions |
| Quiescence.SecondPassQuietIff | internal/controller/plugin.go:96-228 | After one fault-free pass from any world, the next one over the same spec and ready tiers issues no SQL statement exactly when those tiers want the same versions and none declares a name twice |
| Quiescence.DifferentMapsNeverQuiet | internal/controller/plugin.go:181-228 | If two ready tiers want different versions, no fault-free pass is ever free of SQL statements |
| Quiescence.OneTierInstalls | internal/controller/plugin.go:108-153 | If the ready tiers agree, every statement of the pass belongs to one of them, and only the first can issue anything but ADD SERVICE |
| Quiescence.SecondPassChangesNoObject | internal/controller/picoclusterdb_controller.go:211-273 | After a fault-free pass from any world, no tier of the next pass over the same spec changes any object, whatever the pods report, if and only if the tiers get along |
| Recovery.OnePassRepairs | internal/controller/picoclusterdb_controller.go:57-109 | After any faulty run over any specs, one pass without faults leaves every tier with exactly its replicasets and desired fields if and only if the tiers get along; the plugin table is that of the last ready tier |
| Recovery.DistinctTiersRepairedIff | internal/controller/picoclusterdb_controller.go:57-109 | For tiers with distinct names: if and only if no two of their Service names clash |
| Recovery.ReadyIff | internal/controller/picoclusterdb_controller.go:83-108 | A pass without faults after any faulty run ends with phase Ready if and only if, for every tier, every stored replicaset reports all the pods it asks for at the call by which the pass counts them (pod counts in int32 range, no report above what is asked for) |
| Contexts.ContextsOfPass | internal/controller/plugin.go:96-170 | A fault-free pass from any world takes each version through the ready tiers in order: dropped where it is not wanted, left as it is where it is enabled, otherwise enabled with the context of its first declaration there on top of the context it had |
| Contexts.ContextInForceIff | internal/controller/plugin.go:108-127 | If the ready tiers want the same versions, the context one of them gives is in force afterwards if and only if, key by key, it is the value of the first declaration of the first ready tier if the version was not enabled before and that declaration has the key, and else the value in the table before the pass |
| Recovery.ReadyIsTrue | internal/controller/picoclusterdb_controller.go:83-108 | If pass n of any faulty run issues phase Ready, then for each tier every single replicaset reported all the pods it asks for in the store, at the call of that very pass that counts the tier's pods (pod counts in int32 range, no report above what is asked for) |
| Readiness.ReadyTestExact | internal/controller/picoclusterdb_controller.go:293-302 | If Replicas times ReplicationFactor fits an int32, reports within the factor pass the test if and only if every one equals it |
| Readiness.ReadyTierIsFull | internal/controller/picoclusterdb_controller.go:280-303 | After a successful tier reconciliation, with the same assumptions, the tier counts as ready exactly when each of its replicasets reports all the pods that its stored StatefulSet asks for |
| Readiness.ObservedCount | internal/controller/picoclusterdb_controller.go:280-303 | In whatever order the list comes back, the reported readyReplicas are the int32 value of what replicasets 1..Replicas report together at that call, and desiredReplicas that of Replicas times ReplicationFactor |
| Readiness.DesiredIsAskedFor | internal/controller/picoclusterdb_controller.go:293 | The number of pods the status waits for is the number the stored replicasets ask for if and only if that fits an int32 |
| Readiness.ReadyIsSoundIff | internal/controller/picoclusterdb_controller.go:293-303 | The ready test is sound for all reports if and only if Replicas times ReplicationFactor fits an int32 |
| Readiness.SumWraps | internal/controller/picoclusterdb_controller.go:294-297 | The int32 accumulator ends with the wrapped true sum |
| Readiness.CreationLoopEndsIff | internal/controller/picoclusterdb_controller.go:146-154 | The int32 creation loop ends if and only if Replicas is below 2^31-1; it visits 1..Replicas in order, and where it does not end it goes on with -2^31 |
| Passes.StatusUnderPluginFailure | internal/controller/picoclusterdb_controller.go:89-97 | When tier k's plugin pass is the first to fail, the last command writes exactly the statuses of the tiers before k, in spec order, with Ready False, and every command before it worked for a tier up to k |
| Failures.FailureStops | internal/controller/picoclusterdb_controller.go:72-109 | What follows a failed command in its pass: nothing after an API call, and the pass fails; only the status after a statement that installs a plugin, and the pass does not fail; nothing of the same tier after a statement that drops one |
| Failures.PassStopsIff | internal/controller/plugin.go:36-80 | In any faulty run a pass stops with an error at a tier if and only if one of the tier's calls up to the count of its pods fails, and stops at its plugins if and only if those succeed, plugins are due and one of the calls for them fails, up to where obsolete versions are looked for; what becomes of the latter makes no difference |
| FailedPass.LaterTiersUntouched | internal/controller/picoclusterdb_controller.go:75-97 | When a pass of a faulty run stops at tier k, every object that no tier up to k could have is in the store after the pass exactly if it was before, and is the same |
| FailedPass.LaterTierApartIff | internal/controller/picoclusterdb_controller.go:75-97 | That covers every possible object of a later tier if and only if no tier up to k has its name or a clashing Service name |
| FailedPass.LaterPluginsOnlyRemoved | internal/controller/plugin.go:96-228 | A version that no tier up to k declares is then as it was, disabled, or gone; and no service of any version is newly bound to a tier whose name is not, in some letter case, that of a tier up to k |
| FailedPass.LaterPluginsUntouchedIff | internal/controller/plugin.go:65-80 | If the drop passes that are reached are reported done, such a version that is in the table is left as it was by the whole pass if and only if no plugin pass got through before the stop; else it is gone |
| FailedPass.LaterPluginsUntouched | internal/controller/plugin.go:65-78 | If no plugin pass got through, such a version is untouched even without that assumption |
| FailedPass.RemovedForGood | internal/controller/plugin.go:208-228 | Once an earlier tier has dropped such a version it does not come back in the same pass |
| SharedTableExample.LaterPluginRemoved | internal/controller/plugin.go:173-230 | A concrete input: three tiers, calls lost from number 20 on; the pass stops at the second tier and the plugin that only the third declares is gone |
| Passes.ReadyMeansAllTiersReady | internal/controller/picoclusterdb_controller.go:83-108 | A status with phase Ready is the last command of its pass, every tier's sum reached the desired number, and every declared plugin is listed in spec order as enabled |
| StatusWrites.StatusWrittenIff | internal/controller/picoclusterdb_controller.go:57-109 | A pass writes a status if and only if it could read its resource and no tier reconciliation failed; then it writes exactly one, as its last command |
| StatusWrites.FailedTierKeepsStatus | internal/controller/picoclusterdb_controller.go:78-87 | A pass whose tier reconciliation fails leaves the status as it is and reports an error |
| StatusWrites.PassSucceedsIff | internal/controller/picoclusterdb_controller.go:57-109 | A pass reports success if and only if it could read its resource, no tier reconciliation failed and, unless it stopped at a plugin failure, the last status write was reported done |
| StatusWrites.WrittenStatus | internal/controller/picoclusterdb_controller.go:280-348 | Every status written in any faulty run gives, for the tiers handled, in spec order, what its own pass counted at each tier's own call; phase Ready exactly if that is all tiers and each reached its number; and one condition with status, reason and message to match |
| StatusWrites.KeptTimeIsFirst | internal/controller/picoclusterdb_controller.go:333-340 | Of several Ready conditions with the new status the first one dates the transition |
| StatusHistory.TransitionTime | internal/controller/picoclusterdb_controller.go:307-347 | After any history of updates there is exactly one condition, Ready, True exactly when the phase is Ready, and its transition time is that of the first update in the last block of equal status |
| StatusHistory.StatusOfRuns | internal/controller/picoclusterdb_controller.go:323-347 | In every world of every faulty run the status is what the updates persisted so far, in order and with the clock readings of their own calls, make of the first status |
| StatusHistory.TransitionTimeOfRuns | internal/controller/picoclusterdb_controller.go:323-347 | So in every world of a run that has persisted an update there is one condition, True exactly when the phase is Ready, whose transition time is the clock reading of the first persisted update in the last block of equal status |
| Names.LabelRoundTrip | internal/controller/service.go:53-57 | Parsing the replicaset label gives back the printed index for every int32 |
| Names.LabelsIdentifyTier | internal/controller/service.go:42-57 | A tier's selector matches the labels of a tier's replicasets if and only if it is the same tier |
| Names.SetNamesEqualIff | internal/controller/statefulset.go:45-47 | For any two clusters of a namespace, two StatefulSet names are equal exactly when the indices and "tier-cluster" are |
| Names.SetNameInjective | internal/controller/statefulset.go:45-47 | Within a cluster a StatefulSet name determines tier and index |
| Names.SetsCollideIff | internal/controller/statefulset.go:45-47 | Two clusters of a namespace can ever claim the same StatefulSet if and only if the name of one ends with a hyphen and the name of the other |
| Names.SetNameInjectiveAcrossClusters | internal/controller/statefulset.go:45-47 | With hyphen-free tier names the StatefulSet name determines tier, cluster and index |
| Names.HyphenatedTierCollides | internal/controller/statefulset.go:45-47 | With a hyphen in a tier name two clusters can claim the same StatefulSet |
| Names.ServicesClashIff | internal/controller/service.go:31-38 | A client Service name can equal an interconnect Service name if and only if the cluster name is "interconnect" repeated with hyphens |
| Sed.ReplaceSplits | internal/controller/statefulset.go:399-405 | A sed expression works on each side of a character that its pattern has not, so on each name and each placeholder by itself |
| Substitution.ScriptKeepsIff | internal/controller/statefulset.go:393-412 | The script leaves a text unchanged if and only if no listener's placeholder stands in it |
| Substitution.SettledIff | internal/controller/statefulset.go:393-412 | A placeholder becomes its own listener's address if and only if the first listener whose placeholder stands in it has the same placeholder and port |
| Substitution.ScriptResult | internal/controller/statefulset.go:392-412 | The file is what the script makes of the front, followed by the section with each name and each placeholder worked on by itself |
| Substitution.ScriptRefinesDirectRendering | internal/controller/configmap.go:209-245 | For all names of letters, digits, hyphens and underscores, the file equals, character for character, the front and the section rendered directly with each service's own address and port, if and only if no name and nothing in the front contains a placeholder and each placeholder is settled by a listener with its port |
| InitContainer.ScriptFollowsListeners | internal/controller/statefulset.go:392-413 | On a pod, the script text of its template parses as one sed call from the template file to the config file, with one edit per usable listener in spec order, from its placeholder to the pod's own address with its port |
| InitContainer.ScriptRuns | internal/controller/statefulset.go:407-412 | Running the text of the script, sed or cp, writes the template with the expressions applied in order to the config file, and nothing else |
| InitContainer.PodConfigByWord | internal/controller/statefulset.go:392-446 | What a pod finds as its config once the init container of its template has run: the front, then the section, each name and each placeholder worked on by itself |
| InitContainer.PodConfigIsDirectIff | internal/controller/statefulset.go:392-446 | That is, character for character, the front and the section of its tier's config rendered directly with the pod's own addresses if and only if no name and nothing in the front contains a placeholder and each placeholder is settled by a listener with its port |
| ConfigReads.PodConfigReads | internal/controller/configmap.go:209-245 | Read as nested mappings, it then says, after what the front says and for every usable listener in spec order, under instance, plugin, service and listener: enabled, listening on its port on all interfaces, advertised under the pod's own address with that port |
| ConfigReads.SettingsAt | internal/controller/configmap.go:236-243 | Entry number i of that list is that of listener number i, three values each |
| Deployment.DeployedPodReads | internal/controller/statefulset.go:252-271 | After a tier reconciliation from any store, that is what every pod of every stored replicaset reads, from the ConfigMap that its stored template mounts |
| SingleUnderscores.RefinesIffPortsAgree | internal/controller/configmap.go:209-245 | For names with single inner underscores: if and only if nothing in the front contains a placeholder and listeners that share a placeholder have the same port |
| InitContainer.PodConfigIffPortsAgree | internal/controller/statefulset.go:392-446 | The same of the config a pod ends up with |
| Substitution.PlaceholderIff | internal/controller/statefulset.go:399-400 | For any names at all, two placeholders are equal if and only if "plugin_service" is equal ignoring case |
| Substitution.PlaceholderInjective | internal/controller/statefulset.go:399-400 | Without underscores in the names, if and only if plugin and service names are equal ignoring case |
| SingleUnderscores.UnderscoreNamesCollide | internal/controller/statefulset.go:399-405 | With plugin "x_y" and service "z" next to plugin "x" and service "y_z", the file written on a pod is wrong if and only if their ports differ |
| SingleUnderscores.TrailingUnderscoreBreaks | internal/controller/statefulset.go:399-405 | With services "s" and then "s_" of one plugin the file written on a pod is wrong, whatever the ports |
| Listeners.EntriesOfGroups | internal/controller/configmap.go:220-231 | Grouping by plugin and dropping empty groups keeps the listeners with a usable port, in order |
| Listeners.ExposedAll | internal/controller/statefulset.go:396-398 | Skipping unusable ports drops nothing if and only if every port is positive |
| PortAgreement.GroupsInOrder | internal/controller/configmap.go:236-243 | The printed section advertises its entries in order, each once |
| PortAgreement.ListenersAgree | internal/controller/statefulset.go:172-180 | Config section and sed script enumerate the listeners with a usable port, container and client Service all declared ones, in spec order, each Service port forwarding to the container port of the same name and number; they agree if and only if every port is usable |
| PortAgreement.BuildPorts | internal/controller/statefulset.go:167-180 | The container's nested loop appends the plugin ports in spec order after the three fixed ones |
| PortAgreement.BuildClientPorts | internal/controller/service.go:109-138 | The client Service's own loop does the same, each port forwarding to the number it listens on |
| PortAgreement.BuildSedExpressions | internal/controller/statefulset.go:393-405 | The nested loop yields one expression per listener with a usable port, in spec order |
| PortAgreement.BuildPluginSection | internal/controller/configmap.go:209-245 | Collecting, then printing, yields the section with one placeholder per listener with a usable port |
| TopologyText.TopologySays | internal/controller/configmap.go:55-64 | For tier names without a colon, two topology texts are equal if and only if they say the same name, replication factor (1 if left out) and voting right of each tier, in order |
| TopologyText.BuildTopology | internal/controller/configmap.go:56-64 | The loop builds that text |
| ConfigReads.TopologyReads | internal/controller/configmap.go:55-64 | Read as nested mappings, the topology in any tier's config says of every tier of the spec, in order, its replication factor (1 if left out) and its voting right |
| Deployment.ConfigStored | internal/controller/configmap.go:39-165 | After its reconciliation the tier's ConfigMap holds a config with its own tier name, the cluster name and the topology that the configs of all other tiers have |
| Deployment.ClientPortsChosen | internal/controller/service.go:99-128 | The client Service exposes binary, http and pg, each under the port given or else 3301, 8081, 5432 |
| Deployment.InterconnectPortsAre | internal/controller/service.go:79-92 | The interconnect Service exposes binary and pg under the same numbers |
| Deployment.IngressRoutes | internal/controller/ingress.go:27-70 | The Ingress routes its host to the tier's client Service at the port that Service calls http |
| Deployment.ObjectsLabelled | internal/controller/service.go:42-57 | Services, Ingress, StatefulSets and their pods carry the same three labels of cluster and tier, StatefulSets and pods also the index |
| Scheduling.Merge | internal/controller/statefulset.go:451-472 | The merge returns a fresh Affinity whose PodAntiAffinity is the user's own object if there is one, with the replicaset's term appended to it in place |
| Scheduling.SubmitOne | internal/controller/statefulset.go:232-239 | One StatefulSet is sent with the affinity the model gives it, and the shared list has grown by its term |
| Scheduling.SubmitReplicasets | internal/controller/picoclusterdb_controller.go:146-154 | So over the whole loop, for every replicaset, and the user's own spec object holds one more term per replicaset |
| Scheduling.SubmittedTerms | internal/controller/statefulset.go:232-239 | The submitted list starts with the user's terms and ends with the replicaset's own; nothing stands between if the user gave no PodAntiAffinity, the terms of all earlier replicasets if he did |
| Deployment.TemplateAffinity | internal/controller/statefulset.go:232-239 | The pod template carries that affinity: unless disabled, the user's rules, and last a term against pods with the template's own labels on the same kubernetes.io/hostname |
| Scheduling.AsDocumentedIff | internal/controller/statefulset.go:232-239 | All replicasets get the documented affinity if and only if the term is disabled, the user gave no PodAntiAffinity, or there is at most one replicaset |
| Peer.Advertised | internal/controller/statefulset.go:106-114 | Unless the user's env redefines it, PICODATA_IPROTO_ADVERTISE expands to the pod's own address under its tier's interconnect Service |
| Peer.PeerIsAdvertised | internal/controller/configmap.go:66-74 | The peer in every tier's config is what ordinal 0 of replicaset 1 of the first tier advertises |
| Peer.AddressesDistinct | internal/controller/statefulset.go:106-114 | An advertised address determines tier, replicaset and ordinal, whatever characters the names contain |
| Peer.NoSharedAdvertise | internal/controller/statefulset.go:106-114 | No two pods of a cluster advertise the same address |
| PodVariables.PodsListenWhereTheyAdvertise | internal/controller/statefulset.go:101-133 | For each of binary, http and pg, the port a pod listens on and the port it advertises under its own address are the container's port of that name |
| PodVariables.ReplicasetNamed | internal/controller/statefulset.go:134-137 | The replicaset name a pod sees is that of its tier and the index in its labels |
| PodVariables.PlacesSeen | internal/controller/statefulset.go:86-158 | Where a pod finds its config file, socket, address and password |
| PodVariables.UserEnvWins | internal/controller/statefulset.go:161 | Whatever the user's env defines last under a name, a pod sees |
| Reconciler.ContainsString | internal/controller/plugin.go:299-306 | The loop finds a string equal ignoring case if and only if there is one |
| Reconciler.PicoclusterDBReconciler.Exec | internal/controller/plugin.go:98-103 | One command with its fault: effect, log entry and error as the protocol has them |
| Reconciler.PicoclusterDBReconciler.AddDeclaredServices | internal/controller/plugin.go:109-117 | The service loop runs its part of the script, stopping at the first failure |
| Reconciler.PicoclusterDBReconciler.SetMigrationContext | internal/controller/plugin.go:119-127 | The context loop runs its part of the script, stopping at the first failure |
| Reconciler.PicoclusterDBReconciler.Install | internal/controller/plugin.go:108-136 | All statements up to the migration equal the install script |
| Reconciler.PicoclusterDBReconciler.BindDiscovered | internal/controller/plugin.go:139-153 | The binding loop equals the protocol's binding pass |
| Reconciler.PicoclusterDBReconciler.ReconcilePlugin | internal/controller/plugin.go:84-170 | The method ends in the session of the protocol function, and reports the plugin as enabled on success |
| Reconciler.PicoclusterDBReconciler.DropObsoletePlugins | internal/controller/plugin.go:173-230 | The method with its desired map and listing loop equals the protocol function |
| Reconciler.PicoclusterDBReconciler.ReconcileTierPlugins | internal/controller/plugin.go:36-80 | The same for a tier's plugins, with the statuses in spec order and drop failures swallowed |
| Reconciler.PicoclusterDBReconciler.ReconcileObject | internal/controller/picoclusterdb_controller.go:211-273 | Get, then create, or patch labels and live fields only |
| Reconciler.PicoclusterDBReconciler.SubmitTier | internal/controller/picoclusterdb_controller.go:117-154 | The builders' objects are submitted in order up to the first failure |
| Reconciler.PicoclusterDBReconciler.DeleteExtraStatefulSets | internal/controller/picoclusterdb_controller.go:176-205 | The delete loop equals the protocol's |
| Reconciler.PicoclusterDBReconciler.ReconcileTier | internal/controller/picoclusterdb_controller.go:112-174 | The method equals the protocol function |
| Reconciler.PicoclusterDBReconciler.ObserveTier | internal/controller/picoclusterdb_controller.go:280-303 | The int32 loop yields the protocol's tier status and ready flag |
| Reconciler.PicoclusterDBReconciler.UpdateStatus | internal/controller/picoclusterdb_controller.go:307-348 | The condition search and the patch equal the protocol's status update |
| Reconciler.PicoclusterDBReconciler.WalkTiers | internal/controller/picoclusterdb_controller.go:72-105 | The loop over the tiers, with its early exits, equals the protocol's walk, and the flag says whether all are ready |
| Reconciler.PicoclusterDBReconciler.Reconcile | internal/controller/picoclusterdb_controller.go:57-109 | A whole pass equals the protocol function |
| Reconciler.RunFresh | internal/controller/picoclusterdb_controller.go:57-109 | A fresh reconciler taken through any passes ends with the history of the run theorems, and that history is safe |

## Left out

- Stale reads: Get and List see the store as it is; the controller cache and merge-patch encoding are not modelled.
- Outside edits of objects or plugins, garbage collection, and Picodata's limit on simultaneous versions of a plugin.
- Reading the resource when it is gone (`internal/controller/picoclusterdb_controller.go:62-67`): the pass ends with nothing done; a run here is a sequence of specs that were read.
- `metadata.name`, `metadata.namespace` and `spec.clusterName` are fixed for a run, as the API declares clusterName immutable.
- SetControllerReference and owner references; its error paths (`internal/controller/picoclusterdb_controller.go:119-121` and alike) stop the tier like any other failed call.
- Row decoding errors, which the loops over query results skip (`internal/controller/plugin.go:199-201`).
- SQL text, quoting, connection strings and the admin password; reading the Secret and connecting are two calls that may fail.
- The checksum is an arbitrary function of the config; the config is a record of the fields that other parts rely on, not the whole YAML text. `Substitution` works on the text of the plugin section, after any text that ends a line.
- Letter case is ASCII. What shell and sed do is modelled for plugin and service names of letters, digits, hyphens and underscores; names with characters that one of them treats specially are not covered.
- Expansion of `$(NAME)` in env values and pod names of StatefulSets follow Kubernetes' documented rules, which are not in this repository.
- Probes, resources, tolerations, storage sizes, images and log settings are copied without a decision and stand behind opaque `settings` strings; so does the FSGroup default, which writes 1000 into a SecurityContext the user gave (`internal/controller/statefulset.go:224-230`).
- Ingress TLS and annotations stand behind one `options` string.
- Backoff, requeue delays, logging, metrics, leader election and RBAC.
- Reconciler.PicoclusterDBReconciler.SubmitTier: counts replicasets without bound, so it does not show the endless loop that Readiness.CreationLoopEndsIff proves for Replicas of 2^31-1.
- RunTheorems.DeletesAreSafe: like every theorem on passes, takes the creation loop to end, so it says nothing of a pass over a tier with Replicas of 2^31-1.
- RunTheorems.ForeignObjectsUntouched: for the same reason does not cover the StatefulSets with negative indices that such a pass would go on to create.
- Recovery.ReadyIsTrue: assumes, at the calls that count pods, reports between 0 and what the stored StatefulSet asks for, and a pod count in int32 range, because without the latter the test is unsound (Readiness.ReadyIsSoundIff).
- InitContainer.ScriptRuns: models of the shell what one-line scripts of bare or wholly quoted words need, and of sed global substitution of literal text on the text as a whole; no pattern or replacement holds a line break.
- ConfigReads.PodConfigReads: reads nested mappings with one key a line, by indentation; lists, comments and other notations of YAML are passed over. The front is any text that ends inside the mapping of instance.
- FailedPass.LaterPluginsUntouchedIff: assumes that the drop passes that are reached are reported done, because a version stays where its drop fails, which is only logged (`internal/controller/plugin.go:74-77`).
- TopologyText.TopologySays: assumes no colon in tier names, which Kubernetes object names cannot contain.
- Peer.Advertised: assumes no `$` in tier and cluster names, which Kubernetes object names cannot contain.
