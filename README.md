# Market-app upgrade engine: a Dafny model

This project models the core of the console's market-app upgrade. That core takes an installed application and a newer template from the application market and turns them into an upgrade:

- **The preview.** `changes()` describes what the upgrade will do, per component.
- **The new app.** `NewApp` holds the new and updated components. It derives their dependency edges from the template and saves them with one bulk repository call per kind of row written. New components get their services, sources, envs, ports, probes, extend infos, monitors, graphs and group relations created; their volumes are collected but not written. Updated components get their services updated and their sources, envs, ports, volumes, extend infos, monitors and graphs created or updated; their probes are collected but not written, and their group relations are not written. The dependency edges are stored last.
- **The derivations.** `AppUpgrade` derives the rest from the template:
  - dependency and volume-mount edges;
  - config groups, their items and their component bindings, all "only add";
  - plugin relations and plugin config variables.
- **The run.** `AppUpgrade.upgrade()` installs plugins, syncs the new app to the region, saves it locally behind a snapshot, and deploys. Each phase that fails marks the upgrade record and stops the upgrade.
- **The image form.** The image-service form derives a service alias, an image name and version, and a memory and CPU size.

Modules follow the source:

| file | module | models |
|---|---|---|
| `common.dfy` | `Common` | `Option`, `Result`, Python truthiness of a string, and last-wins dictionary building |
| `entities.dfy` | `Entities` | component records, the `Component` aggregate (a class: `component_deps` is assigned in place), the template's shape |
| `dependencies.dfy` | `Dependencies` | template dependency edges, shared by `AppUpgrade` and `NewApp` |
| `upgrade_edges.dfy` | `UpgradeEdges` | `_create_component_deps`, `_create_volume_deps`, `_volume_exists` |
| `upgrade_config.dfy` | `UpgradeConfig` | `_config_groups`, `_config_group_items`, `_config_group_components` |
| `upgrade_plugins.dfy` | `UpgradePlugins` | `plugin_from`, `_component_plugins`, `_create_plugin_configs` |
| `upgrade_changes.dfy` | `UpgradeChanges` | `changes()` |
| `upgrade_flow.dfy` | `UpgradeFlow` | `upgrade()`, `_save_app`, `_deploy`, `_create_component_record`, `_update_upgrade_record` |
| `new_app.dfy` | `NewApplication` | `NewApp`: `save`, `components`, `_components`, `_save_components`, `_update_components`, `_save_component_deps`, `_component_deps` |
| `image_params.dfy` | `ImageParams` | service alias, image-URL split, memory to CPU |

How the source maps onto Dafny:

- **Loops.** Loops that build lists are `method`s with loop invariants. Each is proved equal to a specification function, and the properties are lemmas about that function.
- **Dictionaries.** A dictionary built from a list keeps the last entry per key (`Common.IndexMap`).
- **Empty values.** An absent or empty string, which Python treats as false, is `""`.
- **Oracles.** Each collaborator becomes an input:
  - repositories, the region API and the rollback are given as their answers (`UpgradeFlow.Oracle`, or the rows a repository returns);
  - `make_uuid()` is a function `uuid: nat -> string` of the position of the template entry that needs the identifier.
- **Writes.** Repository writes and region calls are appended, in order, to a log (`NewApp.writes`, `AppUpgrade.log`).

Where the code and its design description differ, the model follows the code:

- `changes()` is described as a preview without side effects. It removes the `component_id` key from the property-change dictionaries it finds. A second preview on the same change list therefore raises `KeyError` (`UpgradeChanges.ChangesTwiceRaises`).
- The upgrade record is described as ending in `DEPLOYING` on success. The code never sets `DEPLOYING`: a successful upgrade ends `UPGRADING` (`UpgradeFlow.UpgradeSucceeds`).
- A failed deploy saves the record with no snapshot id (`_update_upgrade_record` defaults it to `None`). This drops the snapshot id saved by the previous phase (`UpgradeFlow.DeployFailure`).
- An application whose original app has no components has no snapshot. Reading its id raises after the new app has been saved, so such an upgrade always rolls back (`UpgradeFlow.EmptyOriginalNeverDeploys`).
- A component "has a change" only when its property-change dictionary still holds a key once `component_id` has been removed (`UpgradeChanges.UpgradeSummary`).

## Model

| member | source | states |
|---|---|---|
| Common.IndexMapLastWins | console/services/market_app/app_upgrade.py:339 | a dictionary built from a list maps each key to the value of the last element with that key |
| Dependencies.DepEdge | console/services/market_app/app_upgrade.py:356-362 | an edge runs from the owning component to the dependency, has the owner's tenant, type "application" and order 0 |
| Dependencies.EdgeKeys | console/services/market_app/new_app.py:143 | the existing-edge table holds exactly the `service_id + dep_service_id` keys of the existing edges |
| Dependencies.PairEdges | console/services/market_app/app_upgrade.py:344-363 | a template pair yields at most one edge, exactly when both share-UUIDs resolve and its key is not suppressed |
| Dependencies.TemplateEdgesSound | console/services/market_app/app_upgrade.py:342-363 | every derived edge comes from some template pair that resolves |
| Dependencies.TemplateEdgesComplete | console/services/market_app/app_upgrade.py:342-363 | every template pair that resolves and is not suppressed yields its edge |
| Dependencies.TemplateEdgesMembers | console/services/market_app/new_app.py:146-170 | both directions: an edge is derived if and only if some template entry lists a dependency whose two share-UUIDs resolve and whose key is not in the table |
| Dependencies.ByIdNeverDuplicates | console/services/market_app/new_app.py:143-161 | with the lookup keyed by component ids, no derived edge repeats an existing edge |
| Dependencies.ByIdIdempotent | console/services/market_app/new_app.py:143-171 | with the lookup keyed by component ids, deriving again with the derived edges added to the existing ones yields nothing |
| Dependencies.ShareKeysMissExistingEdge | console/services/market_app/new_app.py:160 | as written, the lookup key is made of share-UUIDs, so an existing edge a→b is derived again |
| UpgradeEdges.ByShareUuid | console/services/market_app/app_upgrade.py:339 | a share-UUID resolves exactly when some passed component has it |
| UpgradeEdges.CreateComponentDeps | console/services/market_app/app_upgrade.py:333-364 | the loop yields the template edges over the components' share-UUIDs, with nothing suppressed |
| UpgradeEdges.TemplateDeps | console/services/market_app/app_upgrade.py:342-364 | the loop over template entries yields every entry's edges, in template order |
| UpgradeEdges.EntryDeps | console/services/market_app/app_upgrade.py:343-363 | the inner loop appends one template entry's edges: none when its own share-UUID does not resolve |
| UpgradeEdges.ComponentDepsMembers | console/services/market_app/app_upgrade.py:339-363 | an edge is produced if and only if a template pair's two share-UUIDs resolve, and it joins their components |
| UpgradeEdges.VolumeExists | console/services/market_app/app_upgrade.py:404-407 | true if and only if some volume's `service_id + volume_name` equals the looked-up concatenation |
| UpgradeEdges.VolumeExistsExact | console/services/market_app/app_upgrade.py:404-407 | when component ids have one length, the lookup finds exactly the (component, volume name) pair asked for |
| UpgradeEdges.VolumeKeyConflates | console/services/market_app/app_upgrade.py:406-407 | without equal-length ids, volume "c" of "ab" is reported as volume "bc" of "a" |
| UpgradeEdges.AllVolumes | console/services/market_app/app_upgrade.py:370-372 | exactly the volumes of the passed components |
| UpgradeEdges.CollectVolumes | console/services/market_app/app_upgrade.py:370-372 | the collection loop yields every passed component's volumes, component by component |
| UpgradeEdges.CreateVolumeDeps | console/services/market_app/app_upgrade.py:366-402 | the loop yields the as-written outcome: mount edges, or the exception raised for a dependent component that does not resolve |
| UpgradeEdges.CreateEntryMounts | console/services/market_app/app_upgrade.py:381-401 | one template entry's mount relations yield their edges, or raise, and the only exception is the one for an unresolved dependent component |
| UpgradeEdges.VolumeDepsMembers | console/services/market_app/app_upgrade.py:375-401 | corrected: a mount edge exists if and only if both share-UUIDs resolve and the dependent component has a volume of that mount name |
| UpgradeEdges.VolumeDepsAsWrittenAgree | console/services/market_app/app_upgrade.py:366-402 | as written, the builder raises exactly when a resolved entry has a dangling mount relation, and otherwise equals the corrected one |
| UpgradeEdges.MountsAsWrittenAgree | console/services/market_app/app_upgrade.py:381-401 | for a resolved entry, the as-written mount loop raises exactly when one of its relations dangles, and otherwise yields the corrected edges |
| UpgradeEdges.DanglingMountRaises | console/services/market_app/app_upgrade.py:384-387 | an entry mounting a volume of an unknown share-UUID makes the as-written builder raise and the corrected one yield no edge |
| UpgradeConfig.OnlyAdd | console/services/market_app/app_upgrade.py:413-428 | existing rows are kept, unchanged and first, and a candidate is added if and only if its key is not an existing row's key |
| UpgradeConfig.OnlyAddKeepsExistingKeys | console/services/market_app/app_upgrade.py:416-418 | no added row has the key of an existing row |
| UpgradeConfig.UnseenMembers | console/services/market_app/app_upgrade.py:475-477 | a candidate survives the key filter if and only if its key is not among the existing keys |
| UpgradeConfig.GroupCandidates | console/services/market_app/app_upgrade.py:419-426 | one new group per template group, with its name and injection type, enabled, in the app's region, with a fresh id |
| UpgradeConfig.ConfigGroups | console/services/market_app/app_upgrade.py:409-428 | the groups are the existing ones followed by the template groups whose names are new |
| UpgradeConfig.AddGroups | console/services/market_app/app_upgrade.py:415-427 | the loop appends a new group for exactly the template groups whose names are not among the existing ones, in template order |
| UpgradeConfig.ConfigGroupsCoverTemplate | console/services/market_app/app_upgrade.py:413-428 | after the call every group the template names exists |
| UpgradeConfig.GroupItems | console/services/market_app/app_upgrade.py:473-484 | one item per key/value pair of a template group, attached to that group's id |
| UpgradeConfig.AddGroupItems | console/services/market_app/app_upgrade.py:473-485 | the inner loop appends exactly the group's items whose `name + item_key` is not an existing key |
| UpgradeConfig.AddEntryItems | console/services/market_app/app_upgrade.py:465-485 | a template group adds its unseen items, or nothing when no group of its name exists |
| UpgradeConfig.ConfigGroupItems | console/services/market_app/app_upgrade.py:456-486 | the items are the existing ones followed by the template items of existing groups whose keys are new |
| UpgradeConfig.AddItems | console/services/market_app/app_upgrade.py:464-485 | the loop over template groups appends every unseen item candidate, in order |
| UpgradeConfig.ItemCandidatesSound | console/services/market_app/app_upgrade.py:465-484 | every candidate item belongs to an existing group, carries its id and comes from a template pair of that group |
| UpgradeConfig.ItemCandidatesComplete | console/services/market_app/app_upgrade.py:465-484 | every template pair of an existing group is a candidate |
| UpgradeConfig.AddGroupBindings | console/services/market_app/app_upgrade.py:506-519 | the inner loop appends a binding for each listed key that resolves, unless `group name + component id` is an existing key |
| UpgradeConfig.AddEntryBindings | console/services/market_app/app_upgrade.py:500-519 | a template group adds its unseen bindings, or nothing when no group of its name exists |
| UpgradeConfig.AddBindings | console/services/market_app/app_upgrade.py:499-519 | the loop over template groups appends every unseen binding candidate, in order |
| UpgradeConfig.ConfigGroupComponents | console/services/market_app/app_upgrade.py:488-520 | the bindings are the existing ones followed by the resolvable template bindings whose keys are new |
| UpgradeConfig.BindingCandidatesSound | console/services/market_app/app_upgrade.py:500-518 | every candidate binding joins an existing group to a component that a template group of that name lists by service key |
| UpgradeConfig.BindingCandidatesComplete | console/services/market_app/app_upgrade.py:500-518 | every listed key that resolves, in a group that exists, gives a candidate |
| UpgradePlugins.PluginFrom | console/services/market_app/app_upgrade.py:203-209 | "yb" if and only if the origin is "local_market", "ys" if and only if it is "market", none otherwise |
| UpgradePlugins.Resolve | console/services/market_app/app_upgrade.py:536-543 | a template service id resolves if and only if its service key is known, non-empty and some component has it |
| UpgradePlugins.PluginConfigs | console/services/market_app/app_upgrade.py:575-603 | no variables if and only if some entry's destination does not resolve; otherwise one variable per entry, with the component, the plugin build and the resolved destination |
| UpgradePlugins.CreatePluginConfigs | console/services/market_app/app_upgrade.py:569-603 | returns the variables and "not ignored", or nothing and "ignored" exactly when a destination does not resolve |
| UpgradePlugins.PluginConfigFor | console/services/market_app/app_upgrade.py:576-602 | one entry gives no variable if and only if its destination does not resolve; otherwise the variable of the component and plugin build, pointed at the resolved destination |
| UpgradePlugins.Bind | console/services/market_app/app_upgrade.py:534-565 | a binding is dropped if and only if its component key is unknown or empty, no component has it, the plugin is missing or a destination does not resolve; otherwise its relation carries the component, the plugin build and the template's meta type, status, memory and CPU, and its variables are exactly the plugin config variables of its entries, with their resolved destinations |
| UpgradePlugins.BindPlugins | console/services/market_app/app_upgrade.py:534-566 | the loop yields the relations and variables of every binding that is not dropped, in order |
| UpgradePlugins.ComponentPlugins | console/services/market_app/app_upgrade.py:522-566 | the bindings of all template entries are collected and bound against the plugins and components |
| UpgradePlugins.PluginRelationsSound | console/services/market_app/app_upgrade.py:557-565 | every relation comes from a binding that resolved |
| UpgradePlugins.PluginRelationsComplete | console/services/market_app/app_upgrade.py:557-565 | every binding that resolves contributes its relation |
| UpgradePlugins.PluginConfigsHaveRelation | console/services/market_app/app_upgrade.py:552-557 | every config variable has a relation with the same component, plugin and build |
| UpgradeChanges.ChangeIndex | console/services/market_app/app_upgrade.py:131 | raises `KeyError` if and only if some change lacks `component_id`; otherwise each id maps to a change with that id |
| UpgradeChanges.ChangeIndexLastWins | console/services/market_app/app_upgrade.py:131 | among the changes with one id, the last is kept |
| UpgradeChanges.Popped | console/services/market_app/app_upgrade.py:133-137 | only the `component_id` key of the looked-up changes is removed, nothing else |
| UpgradeChanges.UpgradeSummary | console/services/market_app/app_upgrade.py:139-154 | an applicable upgrade of the component, with its id, cname, key and current version; `upgrade_info` is present if and only if the component has a change, and is then that change with `component_id` removed; `have_change` if and only if that change has another key and the version differs |
| UpgradeChanges.AddSummaries | console/services/market_app/app_upgrade.py:157-169 | only new components with a template entry are listed, with that entry |
| UpgradeChanges.AddSummariesComplete | console/services/market_app/app_upgrade.py:157-169 | every new component with a template entry is listed |
| UpgradeChanges.UpgradeSummariesAt | console/services/market_app/app_upgrade.py:133-154 | the i-th summary is the i-th component's upgrade summary |
| UpgradeChanges.PopComponentId | console/services/market_app/app_upgrade.py:135-137 | only the looked-up change loses its `component_id`, and only if it still has it |
| UpgradeChanges.SummarizeUpdate | console/services/market_app/app_upgrade.py:133-154 | one component's change loses `component_id`; a summary is built if and only if it has an original component, and it is that component's upgrade summary |
| UpgradeChanges.UpdateSummaries | console/services/market_app/app_upgrade.py:133-154 | the loop yields the update summaries and leaves the change list as specified |
| UpgradeChanges.AddNewSummaries | console/services/market_app/app_upgrade.py:157-169 | the loop yields exactly the new-component summaries |
| UpgradeChanges.Changes | console/services/market_app/app_upgrade.py:125-171 | the returned summaries and the changed list are those of the specification |
| UpgradeChanges.ChangesTwiceRaises | console/services/market_app/app_upgrade.py:131-137 | after a preview that found a change, a second preview raises `KeyError` |
| UpgradeChanges.ChangesSplit | console/services/market_app/app_upgrade.py:129-171 | a successful preview lists the update summaries, then the new ones |
| UpgradeChanges.ChangesUpgradeAt | console/services/market_app/app_upgrade.py:133-154 | every component to update is listed in order, applicable, with its cname, key and current version, its change minus `component_id` as `upgrade_info`, and `have_change` as its change and version say |
| UpgradeChanges.ChangesAddAt | console/services/market_app/app_upgrade.py:157-169 | after them come only new components with their template entry |
| UpgradeChanges.ChangesMissingOriginal | console/services/market_app/app_upgrade.py:139-142 | a component to update without an original component makes the preview raise |
| UpgradeFlow.ComponentRecords | console/services/market_app/app_upgrade.py:247-263 | every child record is upgrading, with the non-empty event id the region gave its component |
| UpgradeFlow.ComponentRecordsComplete | console/services/market_app/app_upgrade.py:250-263 | every component with a non-empty event id gets its record |
| UpgradeFlow.ComponentRecordsSound | console/services/market_app/app_upgrade.py:250-263 | every record belongs to one of the components |
| UpgradeFlow.BuildComponentRecords | console/services/market_app/app_upgrade.py:248-263 | the loop yields exactly the specified child records |
| UpgradeFlow.AppUpgrade.UpdateUpgradeRecord | console/services/market_app/app_upgrade.py:430-434 | the record gets the status, the snapshot id (none unless given) and the target version, and is saved |
| UpgradeFlow.AppUpgrade.SaveAppPhase | console/services/market_app/app_upgrade.py:266-270 | snapshot, then save, then record upgrading with the snapshot id; on failure the record is unchanged |
| UpgradeFlow.AppUpgrade.CreateComponentRecord | console/services/market_app/app_upgrade.py:247-264 | bulk-creates the child records |
| UpgradeFlow.AppUpgrade.DeployPhase | console/services/market_app/app_upgrade.py:233-245 | deploys every component; on failure marks the record deploy-failed and reports the error |
| UpgradeFlow.AppUpgrade.Upgrade | console/services/market_app/app_upgrade.py:95-123 | the calls made, the final record and the outcome are those of the specified run |
| UpgradeFlow.EarlyFailure | console/services/market_app/app_upgrade.py:96-109 | a failed install or sync marks the record failed and raises; nothing is saved, rolled back or deployed |
| UpgradeFlow.SaveFailureRollsBack | console/services/market_app/app_upgrade.py:111-119 | a failed save marks the record failed and rolls back; it raises the generic error, or the rollback's own error |
| UpgradeFlow.EmptyOriginalNeverDeploys | console/services/market_app/app_upgrade.py:436-443 | without original components the new app is saved, then rolled back, never deployed |
| UpgradeFlow.SnapshotBeforeSave | console/services/market_app/app_upgrade.py:267-269 | the snapshot is taken before the new app is saved |
| UpgradeFlow.UpgradeSucceeds | console/services/market_app/app_upgrade.py:95-123 | success if and only if every collaborator succeeds and there are original components; it then ends upgrading, with the snapshot id and the child records |
| UpgradeFlow.DeployFailure | console/services/market_app/app_upgrade.py:239-244 | a failed deploy marks the record deploy-failed, drops the snapshot id and wraps handled region errors |
| NewApplication.GatherMembers | console/services/market_app/new_app.py:70-80 | a collected row is a row of some component, and every such row is collected |
| NewApplication.PresentMembers | console/services/market_app/new_app.py:75-78 | exactly the present probes (extend infos) are collected |
| NewApplication.CollectRows | console/services/market_app/new_app.py:61-81 | the collection loop yields the specified rows |
| NewApplication.CollectOnePerComponent | console/services/market_app/new_app.py:71-81 | one source row and one group relation per component, in order |
| NewApplication.SaveWrites | console/services/market_app/new_app.py:82-92 | new components: service rows are created first, every write is a create, no volume row is written |
| NewApplication.UpdateWrites | console/services/market_app/new_app.py:118-126 | updated components: service rows are updated, the rest created-or-updated, no probe or group relation is written |
| NewApplication.ResolvedIndex | console/services/market_app/new_app.py:137-142 | a share-UUID resolves if and only if some component has it as its non-empty source share-UUID |
| NewApplication.ComponentDeps | console/services/market_app/new_app.py:136-172 | the loops yield the derived edges, with the share-UUID lookup as written, then the existing edges |
| NewApplication.AddEntryDeps | console/services/market_app/new_app.py:147-170 | the inner loop appends one template entry's edges |
| NewApplication.ComponentDepsShape | console/services/market_app/new_app.py:141-171 | the existing edges are all kept, last; every derived edge joins two components with non-empty share-UUIDs |
| NewApplication.DepsOf | console/services/market_app/new_app.py:46-49 | the edges leaving one component, in order |
| NewApplication.GroupByServiceIdSpec | console/services/market_app/new_app.py:45-49 | a component has an entry if and only if an edge leaves it, and the entry is exactly those edges, in order |
| NewApplication.GroupDeps | console/services/market_app/new_app.py:45-49 | the grouping loop yields the specified grouping |
| NewApplication.DepsForSpec | console/services/market_app/new_app.py:50-51 | a component gets none if and only if no edge leaves it, and otherwise exactly its edges |
| NewApplication.NewApp.constructor | console/services/market_app/new_app.py:27-36 | the edges are derived once, when the app is built |
| NewApplication.NewApp.Save | console/services/market_app/new_app.py:38-41 | create the new components, update the others, then store the edges |
| NewApplication.NewApp.SaveComponents | console/services/market_app/new_app.py:57-92 | appends the new-component writes |
| NewApplication.NewApp.UpdateComponents | console/services/market_app/new_app.py:94-126 | appends the updated-component writes |
| NewApplication.NewApp.Components | console/services/market_app/new_app.py:43-55 | new then updated components, each given exactly the edges leaving it, or none |
| ImageParams.ServiceAlias | www/image_service_view.py:130 | "gr" then the id's last six characters, or the whole id when shorter |
| ImageParams.AliasOnlySeesSuffix | www/image_service_view.py:130 | ids with the same last six characters share an alias |
| ImageParams.FirstIndex | www/image_service_view.py:137 | the position of the first ":" |
| ImageParams.SplitImageUrlSpec | www/image_service_view.py:136-142 | with a ":", name + ":" + version is the URL and the name has no ":"; without one, the URL and "lastest" |
| ImageParams.SplitImageUrlNameStable | www/image_service_view.py:136-139 | the name is what precedes the first ":", whatever follows it |
| ImageParams.RegistryPortSplit | www/image_service_view.py:136-139 | a registry with a port is split at the port |
| ImageParams.SplitImageReferenceSpec | www/image_service_view.py:136-142 | corrected: split at the tag, it puts back together, and the version has no "/" |
| ImageParams.SplitImageReferenceAgrees | www/image_service_view.py:136-142 | without a "/" the corrected split is the one as written |
| ImageParams.RegistryPortReference | www/image_service_view.py:136-139 | the corrected split keeps the port in the name |
| ImageParams.ParseInt | www/image_service_view.py:178 | raises `ValueError` if and only if the text is not a sign then digits; unsigned text is non-negative |
| ImageParams.ParseShowInt | www/image_service_view.py:178 | every integer's decimal form parses back to it |
| ImageParams.TruncDiv128 | www/image_service_view.py:179 | the quotient by 128, truncated toward zero |
| ImageParams.CpuFor | www/image_service_view.py:179 | the CPU is a multiple of 20 |
| ImageParams.CpuSymmetric | www/image_service_view.py:179 | negating the memory negates the CPU (-200 gives -20) |
| ImageParams.CpuMonotone | www/image_service_view.py:179 | for non-negative memory the CPU never decreases, by at most 20 per 128 more |
| ImageParams.MemoryToResources | www/image_service_view.py:175-181 | 128 and 20 when absent or empty; otherwise the parsed memory and its CPU, or the parse error |
| ImageParams.PostedIntegerResources | www/image_service_view.py:175-181 | posting any integer gives that memory and its CPU |

## Left out

- Repositories, the region API, snapshot storage, the backup service and the rollback are not modelled. Only their answers are inputs, and the calls made to them are logged.
- Transactions (`@transaction.atomic`) are not modelled: a failure after some writes does not undo them.
- Plugin installation and the region sync (`install_plugins`, `sync_new_app`) appear only as an outcome each. The rest of `_deploy_plugins` is a request body for the region; only its `plugin_from` mapping is modelled.
- Logging, `create_time`, and the serialised snapshot content are not modelled.
- `make_uuid()` is a function of the template position of the entry that needs an identifier, not a generator with state.
- Template entries are assumed well-formed. A missing key that the source reads with `[]` (`dep["dep_service_key"]`, `plugin_dep["attr"]`, `cg["name"]`) would raise `KeyError`; the model has no such error.
- `int()` accepts only an optional sign and ASCII digits: surrounding whitespace, `_` separators and non-ASCII digits are not modelled. `ParseInt`'s error message is not Python's exact `repr` form.
- `int(cm / 128)` is modelled as exact integer truncation. Python computes the division in floating point, which differs for memories beyond 2^53.
- `AppUpgrade` reads `new_app.components()`, which reassigns `component_deps` on the component objects. The flow model passes the component list and leaves that reassignment to `NewApplication.NewApp.Components`.
- `NewApp._exiting_deps` is called twice by `_component_deps`. The model assumes both calls return the same rows.
- `_update_components` does not collect group relations. `CollectRows` collects them for both paths, and `UpdateWrites` does not write them, so nothing observable differs.
- The rest of the image form view is out of scope: the account checks, port, env and volume parsing, resource prediction and saving.
- `Exception` is a flat datatype. The deploy handler at `app_upgrade.py:239` catches `ServiceHandleException` and every subclass of it; the model wraps only the `ServiceHandleException` constructor, so a subclass raised by the region API is not recognised as handled.
- `component_upgrade_record_repo.bulk_create` (`app_upgrade.py:264`) is assumed to succeed: the oracle has no outcome for it, so a failure there, which would leave the record `UPGRADING` with no child records, is not modelled.
- UpgradeChanges.UpgradeSummaries: its contract states only the length; the contents are stated per index by `UpgradeChanges.UpgradeSummariesAt`.

## Findings

| source | as written | input that shows it | evidently intended | confidence | as-written member | corrected member |
|---|---|---|---|---|---|---|
| console/services/market_app/app_upgrade.py:385-387 | when a mount relation's dependent component does not resolve, the log message reads `service_id` of `None` and raises | component "a" with share-UUID "u1", whose template entry mounts volume "data" of share-UUID "u2", which no component has | log and skip the relation, like every other unresolved reference in the builder | high; not executed | UpgradeEdges.DanglingMountRaises | UpgradeEdges.VolumeDepsMembers |
| console/services/market_app/new_app.py:143,160 | the existing-edge table is keyed by component ids, but the lookup key is made of share-UUIDs, so the check never suppresses an existing edge | components "a", "b" with share-UUIDs "u1", "u2", an existing edge a→b, and a template entry u1→u2: a→b is derived again and stored twice | look up `component.service_id + dep_component.service_id`, so no existing edge is derived again | high; not executed | Dependencies.ShareKeysMissExistingEdge | Dependencies.ByIdNeverDuplicates |
| www/image_service_view.py:136-139 | the image URL is split at its first ":" | `host:5000/app:1.0` gives name `host` and version `5000/app:1.0` | split at the tag, the first ":" after the last "/": name `host:5000/app`, version `1.0` | medium; not executed | ImageParams.RegistryPortSplit | ImageParams.SplitImageReferenceSpec |
