/** `NewApp`: the application an upgrade produces, made of new components
    and updated components, with the dependency edges derived for them.
    Saving it writes batches of rows, one repository call per kind of row;
    the calls are recorded, in order, as `Write`s. */
module NewApplication {
  import opened Common
  import opened Entities
  import opened Dependencies

  datatype Op = BulkCreate | BulkUpdate | BulkCreateOrUpdate

  /** The rows of one repository call. */
  datatype Batch =
    | Services(services: seq<ServiceRecord>)
    | Sources(sources: seq<ComponentSource>)
    | Envs(envs: seq<Env>)
    | Ports(ports: seq<Port>)
    | Volumes(volumes: seq<Volume>)
    | Probes(probes: seq<Probe>)
    | ExtendInfos(extendInfos: seq<ExtendInfo>)
    | Monitors(monitors: seq<Monitor>)
    | Graphs(graphs: seq<Graph>)
    | GroupRels(groupRels: seq<GroupRel>)
    | Deps(tenantId: string, deps: seq<Dep>)

  datatype Write = Write(op: Op, batch: Batch)

  // ---------------------------------------------------------------------
  // Collecting the rows of a list of components
  // ---------------------------------------------------------------------

  /** The rows `f` gives for each component, concatenated in component
      order (`rows.extend(f(cpt))` for each component). */
  function Gather<T>(cpts: seq<Component>, f: Component -> seq<T>): seq<T>
    decreases |cpts|
  {
    if cpts == [] then [] else Gather(cpts[..|cpts| - 1], f) + f(cpts[|cpts| - 1])
  }

  /** The optional row of each component, kept only where it is present
      (`if cpt.probe: probes.append(cpt.probe)`). */
  function Present<T>(cpts: seq<Component>, f: Component -> Option<T>): (r: seq<T>)
    ensures |r| <= |cpts|
    decreases |cpts|
  {
    if cpts == [] then []
    else
      var x := f(cpts[|cpts| - 1]);
      Present(cpts[..|cpts| - 1], f) + (if x.Some? then [x.value] else [])
  }

  /** A gathered row is a row of one of the components, and every row of
      every component is gathered. */
  lemma {:induction false} GatherMembers<T>(cpts: seq<Component>, f: Component -> seq<T>, x: T)
    ensures x in Gather(cpts, f) <==> exists i :: 0 <= i < |cpts| && x in f(cpts[i])
    decreases |cpts|
  {
    if cpts != [] {
      var n := |cpts| - 1;
      var prefix := cpts[..n];
      GatherMembers(prefix, f, x);
      assert forall i :: 0 <= i < n ==> prefix[i] == cpts[i];
      assert x in Gather(cpts, f) <==> x in Gather(prefix, f) || x in f(cpts[n]);
    }
  }


  /** Exactly the present optional rows are collected. */
  lemma {:induction false} PresentMembers<T>(cpts: seq<Component>, f: Component -> Option<T>, x: T)
    ensures x in Present(cpts, f) <==> exists i :: 0 <= i < |cpts| && f(cpts[i]) == Some(x)
    decreases |cpts|
  {
    if cpts != [] {
      var n := |cpts| - 1;
      var prefix := cpts[..n];
      PresentMembers(prefix, f, x);
      assert forall i :: 0 <= i < n ==> prefix[i] == cpts[i];
      assert x in Present(cpts, f) <==> x in Present(prefix, f) || f(cpts[n]) == Some(x);
    }
  }


  function ServiceOf(c: Component): seq<ServiceRecord> { [c.component] }
  function SourceOf(c: Component): seq<ComponentSource> { [c.componentSource] }
  function EnvsOf(c: Component): seq<Env> { c.envs }
  function PortsOf(c: Component): seq<Port> { c.ports }
  function VolumesOf(c: Component): seq<Volume> { c.volumes }
  function ProbeOf(c: Component): Option<Probe> { c.probe }
  function ExtendInfoOf(c: Component): Option<ExtendInfo> { c.extendInfo }
  function MonitorsOf(c: Component): seq<Monitor> { c.monitors }
  function GraphsOf(c: Component): seq<Graph> { c.graphs }
  function GroupRelOf(c: Component): seq<GroupRel> { [c.serviceGroupRel] }

  /** The row lists the collection loop builds. */
  datatype Collected = Collected(
    sources: seq<ComponentSource>,
    envs: seq<Env>,
    ports: seq<Port>,
    volumes: seq<Volume>,
    probes: seq<Probe>,
    extendInfos: seq<ExtendInfo>,
    monitors: seq<Monitor>,
    graphs: seq<Graph>,
    groupRels: seq<GroupRel>)

  function Collect(cpts: seq<Component>): Collected
  {
    Collected(Gather(cpts, SourceOf), Gather(cpts, EnvsOf), Gather(cpts, PortsOf), Gather(cpts, VolumesOf),
              Present(cpts, ProbeOf), Present(cpts, ExtendInfoOf), Gather(cpts, MonitorsOf),
              Gather(cpts, GraphsOf), Gather(cpts, GroupRelOf))
  }

  /** The loop shared by `_save_components` and `_update_components`: one
      source row per component, all their env, port, volume, monitor and
      graph rows, their probe and extend info where present, and their
      group relation. */
  method CollectRows(cpts: seq<Component>) returns (c: Collected)
    ensures c == Collect(cpts)
  {
    var sources, envs, ports, volumes := [], [], [], [];
    var probes, extendInfos, monitors, graphs, groupRels := [], [], [], [], [];
    var i := 0;
    while i < |cpts|
      invariant 0 <= i <= |cpts|
      invariant Collected(sources, envs, ports, volumes, probes, extendInfos, monitors, graphs, groupRels)
                == Collect(cpts[..i])
    {
      var cpt := cpts[i];
      assert cpts[..i + 1][..i] == cpts[..i];
      sources := sources + [cpt.componentSource];
      envs := envs + cpt.envs;
      ports := ports + cpt.ports;
      volumes := volumes + cpt.volumes;
      if cpt.probe.Some? {
        probes := probes + [cpt.probe.value];
      }
      if cpt.extendInfo.Some? {
        extendInfos := extendInfos + [cpt.extendInfo.value];
      }
      monitors := monitors + cpt.monitors;
      graphs := graphs + cpt.graphs;
      groupRels := groupRels + [cpt.serviceGroupRel];
      i := i + 1;
    }
    assert cpts[..i] == cpts;
    c := Collected(sources, envs, ports, volumes, probes, extendInfos, monitors, graphs, groupRels);
  }

  /** One source row and one group relation per component, in order. */
  lemma {:induction false} CollectOnePerComponent(cpts: seq<Component>)
    ensures |Collect(cpts).sources| == |cpts| && |Collect(cpts).groupRels| == |cpts|
    ensures forall i :: 0 <= i < |cpts| ==>
              Collect(cpts).sources[i] == cpts[i].componentSource && Collect(cpts).groupRels[i] == cpts[i].serviceGroupRel
    decreases |cpts|
  {
    if cpts != [] {
      var n := |cpts| - 1;
      var prefix := cpts[..n];
      CollectOnePerComponent(prefix);
      assert forall i :: 0 <= i < n ==> prefix[i] == cpts[i];
    }
  }

  // ---------------------------------------------------------------------
  // The repository calls
  // ---------------------------------------------------------------------

  /** `_save_components`: the new components' rows are created, service
      rows first; their volume rows are collected but not written. */
  function SaveWrites(cpts: seq<Component>): (ws: seq<Write>)
    ensures |ws| == 9 && ws[0] == Write(BulkCreate, Services(Gather(cpts, ServiceOf)))
    ensures forall k :: 0 <= k < |ws| ==> ws[k].op == BulkCreate && !ws[k].batch.Volumes? && !ws[k].batch.Deps?
  {
    var c := Collect(cpts);
    [Write(BulkCreate, Services(Gather(cpts, ServiceOf))),
     Write(BulkCreate, Sources(c.sources)),
     Write(BulkCreate, Envs(c.envs)),
     Write(BulkCreate, Ports(c.ports)),
     Write(BulkCreate, Probes(c.probes)),
     Write(BulkCreate, ExtendInfos(c.extendInfos)),
     Write(BulkCreate, Monitors(c.monitors)),
     Write(BulkCreate, Graphs(c.graphs)),
     Write(BulkCreate, GroupRels(c.groupRels))]
  }

  /** `_update_components`: the updated components' rows are created or
      updated and their service rows updated; their probes are collected
      but not written and no group relation is written. */
  function UpdateWrites(cpts: seq<Component>): (ws: seq<Write>)
    ensures |ws| == 8 && ws[1] == Write(BulkUpdate, Services(Gather(cpts, ServiceOf)))
    ensures forall k :: 0 <= k < |ws| ==>
              && ws[k].op != BulkCreate && !ws[k].batch.Probes? && !ws[k].batch.GroupRels? && !ws[k].batch.Deps?
  {
    var c := Collect(cpts);
    [Write(BulkCreateOrUpdate, Sources(c.sources)),
     Write(BulkUpdate, Services(Gather(cpts, ServiceOf))),
     Write(BulkCreateOrUpdate, Envs(c.envs)),
     Write(BulkCreateOrUpdate, Ports(c.ports)),
     Write(BulkCreateOrUpdate, Volumes(c.volumes)),
     Write(BulkCreateOrUpdate, ExtendInfos(c.extendInfos)),
     Write(BulkCreateOrUpdate, Monitors(c.monitors)),
     Write(BulkCreateOrUpdate, Graphs(c.graphs))]
  }

  // ---------------------------------------------------------------------
  // Dependency edges of the new app
  // ---------------------------------------------------------------------

  function SourceIdOf(s: ComponentSource): string { s.componentId }
  function SourceUuidOf(s: ComponentSource): string { s.serviceShareUuid }

  /** `{source.service_id: source.service_share_uuid for source in sources}` */
  function ShareUuids(sources: seq<ComponentSource>): map<string, string>
  {
    IndexMap(sources, SourceIdOf, SourceUuidOf)
  }

  /** `{uuids[id]: cpt.component for cpt in cpts if uuids.get(id)}`: only
      components with a non-empty share-UUID can be found, under that UUID. */
  function ResolvedIndex(cpts: seq<Component>, uuids: map<string, string>): (index: map<string, ServiceRecord>)
    ensures forall k :: k in index <==> exists i :: 0 <= i < |cpts| && cpts[i].component.componentId in uuids
                                                   && Truthy(uuids[cpts[i].component.componentId])
                                                   && uuids[cpts[i].component.componentId] == k
    ensures forall k :: k in index ==> exists i :: 0 <= i < |cpts| && cpts[i].component.componentId in uuids
                                                   && uuids[cpts[i].component.componentId] == k
                                                   && index[k] == cpts[i].component
    decreases |cpts|
  {
    if cpts == [] then map[]
    else
      var n := |cpts| - 1;
      var m := ResolvedIndex(cpts[..n], uuids);
      var id := cpts[n].component.componentId;
      assert forall i :: 0 <= i < n ==> cpts[..n][i] == cpts[i];
      if id in uuids && Truthy(uuids[id]) then m[uuids[id] := cpts[n].component] else m
  }

  /** `_component_deps` as written: the template edges whose share-UUIDs
      resolve, except those whose share-UUID key is in the table of
      existing edges, followed by the existing edges. */
  function ComponentDepsSpec(apps: seq<AppTmpl>, cpts: seq<Component>, sources: seq<ComponentSource>,
                             existing: seq<Dep>): seq<Dep>
  {
    TemplateEdges(ResolvedIndex(cpts, ShareUuids(sources)), EdgeKeys(existing), ShareKeys, apps) + existing
  }

  /** `_component_deps`; `sources` are the source rows of the components
      and `existing` their stored dependency edges. */
  method ComponentDeps(template: AppTemplate, cpts: seq<Component>, sources: seq<ComponentSource>,
                       existingDeps: seq<Dep>) returns (deps: seq<Dep>)
    ensures deps == ComponentDepsSpec(template.apps, cpts, sources, existingDeps)
  {
    var components := ResolvedIndex(cpts, ShareUuids(sources));
    var existing := EdgeKeys(existingDeps);
    var apps := template.apps;
    deps := [];
    var i := 0;
    while i < |apps|
      invariant 0 <= i <= |apps|
      invariant deps == TemplateEdges(components, existing, ShareKeys, apps[..i])
    {
      var tmpl := apps[i];
      deps := AddEntryDeps(deps, components, existing, tmpl.serviceShareUuid, tmpl.depServiceKeys);
      TemplateEdgesStep(components, existing, ShareKeys, apps, i);
      i := i + 1;
    }
    assert apps[..i] == apps;
    deps := deps + existingDeps;
  }

  /** The inner loop of `_component_deps` over one template entry. */
  method AddEntryDeps(deps: seq<Dep>, components: map<string, ServiceRecord>, existing: set<string>,
                      componentKey: string, depKeys: seq<string>) returns (r: seq<Dep>)
    ensures r == deps + EntryEdges(components, existing, ShareKeys, componentKey, depKeys)
  {
    r := deps;
    var j := 0;
    while j < |depKeys|
      invariant 0 <= j <= |depKeys|
      invariant r == deps + EntryEdges(components, existing, ShareKeys, componentKey, depKeys[..j])
    {
      EntryEdgesStep(components, existing, ShareKeys, componentKey, depKeys, j);
      if componentKey in components {
        var component := components[componentKey];
        var depComponentKey := depKeys[j];
        if depComponentKey in components && componentKey + depComponentKey !in existing {
          var depComponent := components[depComponentKey];
          r := r + [Dep(component.tenantId, component.componentId, depComponent.componentId, "application", 0)];
        }
      }
      j := j + 1;
    }
    assert depKeys[..j] == depKeys;
  }

  /** The existing edges are all kept, after the derived ones; every
      derived edge joins two of the components, each with a non-empty
      share-UUID among the source rows. */
  lemma ComponentDepsShape(apps: seq<AppTmpl>, cpts: seq<Component>, sources: seq<ComponentSource>,
                           existing: seq<Dep>, e: Dep)
    ensures var deps := ComponentDepsSpec(apps, cpts, sources, existing);
            |existing| <= |deps| && deps[|deps| - |existing|..] == existing
    ensures var derived := TemplateEdges(ResolvedIndex(cpts, ShareUuids(sources)), EdgeKeys(existing), ShareKeys, apps);
            var uuids := ShareUuids(sources);
            e in derived ==>
              && (exists i :: 0 <= i < |cpts| && e.serviceId == cpts[i].component.componentId
                              && cpts[i].component.componentId in uuids && Truthy(uuids[cpts[i].component.componentId]))
              && (exists i :: 0 <= i < |cpts| && e.depServiceId == cpts[i].component.componentId
                              && cpts[i].component.componentId in uuids && Truthy(uuids[cpts[i].component.componentId]))
  {
    var uuids := ShareUuids(sources);
    var index := ResolvedIndex(cpts, uuids);
    var derived := TemplateEdges(index, EdgeKeys(existing), ShareKeys, apps);
    assert (derived + existing)[|derived|..] == existing;
    if e in derived {
      TemplateEdgesSound(index, EdgeKeys(existing), ShareKeys, apps, e);
      var i, j :| 0 <= i < |apps| && 0 <= j < |apps[i].depServiceKeys|
                  && Emits(index, EdgeKeys(existing), ShareKeys, apps[i].serviceShareUuid, apps[i].depServiceKeys[j], e);
      ResolvedEnd(cpts, uuids, apps[i].serviceShareUuid);
      ResolvedEnd(cpts, uuids, apps[i].depServiceKeys[j]);
    }
  }

  /** A share-UUID that resolves names a component whose own share-UUID
      it is. */
  lemma ResolvedEnd(cpts: seq<Component>, uuids: map<string, string>, key: string)
    requires key in ResolvedIndex(cpts, uuids)
    ensures exists i :: 0 <= i < |cpts| && ResolvedIndex(cpts, uuids)[key].componentId == cpts[i].component.componentId
                        && cpts[i].component.componentId in uuids && Truthy(uuids[cpts[i].component.componentId])
  {
    var index := ResolvedIndex(cpts, uuids);
    var a :| 0 <= a < |cpts| && cpts[a].component.componentId in uuids
             && uuids[cpts[a].component.componentId] == key && index[key] == cpts[a].component;
    var b :| 0 <= b < |cpts| && cpts[b].component.componentId in uuids
             && Truthy(uuids[cpts[b].component.componentId]) && uuids[cpts[b].component.componentId] == key;
  }

  // ---------------------------------------------------------------------
  // Dependencies grouped by component
  // ---------------------------------------------------------------------

  /** The edges leaving component `id`, in order. */
  function DepsOf(deps: seq<Dep>, id: string): (r: seq<Dep>)
    ensures forall d :: d in r <==> d in deps && d.serviceId == id
    decreases |deps|
  {
    if deps == [] then []
    else
      var d := deps[|deps| - 1];
      DepsOf(deps[..|deps| - 1], id) + (if d.serviceId == id then [d] else [])
  }

  /** The grouping loop of `components()`: the edges of each component, by
      component id, in edge order. */
  function GroupByServiceId(deps: seq<Dep>): (m: map<string, seq<Dep>>)
    decreases |deps|
  {
    if deps == [] then map[]
    else
      var m := GroupByServiceId(deps[..|deps| - 1]);
      var d := deps[|deps| - 1];
      m[d.serviceId := (if d.serviceId in m then m[d.serviceId] else []) + [d]]
  }

  /** A component has an entry exactly when some edge leaves it, and the
      entry lists exactly the edges that leave it, in order. */
  lemma {:induction false} GroupByServiceIdSpec(deps: seq<Dep>, id: string)
    ensures id in GroupByServiceId(deps) <==> DepsOf(deps, id) != []
    ensures id in GroupByServiceId(deps) ==> GroupByServiceId(deps)[id] == DepsOf(deps, id)
    decreases |deps|
  {
    if deps != [] {
      GroupByServiceIdSpec(deps[..|deps| - 1], id);
    }
  }

  method GroupDeps(deps: seq<Dep>) returns (componentDeps: map<string, seq<Dep>>)
    ensures componentDeps == GroupByServiceId(deps)
  {
    componentDeps := map[];
    var i := 0;
    while i < |deps|
      invariant 0 <= i <= |deps|
      invariant componentDeps == GroupByServiceId(deps[..i])
    {
      var dep := deps[i];
      assert deps[..i + 1][..i] == deps[..i];
      var ds := if dep.serviceId in componentDeps then componentDeps[dep.serviceId] else [];
      ds := ds + [dep];
      componentDeps := componentDeps[dep.serviceId := ds];
      i := i + 1;
    }
    assert deps[..i] == deps;
  }

  /** The dependency list `components()` gives a component. */
  function DepsFor(grouped: map<string, seq<Dep>>, id: string): Option<seq<Dep>>
  {
    if id in grouped then Some(grouped[id]) else None
  }

  // ---------------------------------------------------------------------
  // The new app
  // ---------------------------------------------------------------------

  class NewApp {
    const tenantId: string
    const appTemplate: AppTemplate
    const newComponents: seq<Component>
    const updateComponents: seq<Component>
    /** The dependency edges, derived once when the app is built. */
    const componentDeps: seq<Dep>
    /** The repository calls made so far. */
    var writes: seq<Write>

    /** `sources` and `existingDeps` are what the repositories hold for
        the components when the app is built. */
    constructor (tenantId: string, appTemplate: AppTemplate, newComponents: seq<Component>,
                 updateComponents: seq<Component>, sources: seq<ComponentSource>, existingDeps: seq<Dep>)
      ensures this.tenantId == tenantId && this.appTemplate == appTemplate
      ensures this.newComponents == newComponents && this.updateComponents == updateComponents
      ensures componentDeps == ComponentDepsSpec(appTemplate.apps, newComponents + updateComponents, sources, existingDeps)
      ensures writes == []
    {
      var deps := ComponentDeps(appTemplate, newComponents + updateComponents, sources, existingDeps);
      this.tenantId := tenantId;
      this.appTemplate := appTemplate;
      this.newComponents := newComponents;
      this.updateComponents := updateComponents;
      this.componentDeps := deps;
      writes := [];
    }

    /** `save()`: create the new components, update the updated ones, then
        store the dependency edges. */
    method Save()
      modifies this
      ensures writes == old(writes) + SaveWrites(newComponents) + UpdateWrites(updateComponents)
                        + [Write(BulkCreateOrUpdate, Deps(tenantId, componentDeps))]
    {
      SaveComponents();
      UpdateComponents();
      writes := writes + [Write(BulkCreateOrUpdate, Deps(tenantId, componentDeps))];
    }

    /** `_save_components` */
    method SaveComponents()
      modifies this
      ensures writes == old(writes) + SaveWrites(newComponents)
    {
      var c := CollectRows(newComponents);
      var components := Gather(newComponents, ServiceOf);
      writes := writes + [Write(BulkCreate, Services(components)),
                          Write(BulkCreate, Sources(c.sources)),
                          Write(BulkCreate, Envs(c.envs)),
                          Write(BulkCreate, Ports(c.ports)),
                          Write(BulkCreate, Probes(c.probes)),
                          Write(BulkCreate, ExtendInfos(c.extendInfos)),
                          Write(BulkCreate, Monitors(c.monitors)),
                          Write(BulkCreate, Graphs(c.graphs)),
                          Write(BulkCreate, GroupRels(c.groupRels))];
    }

    /** `_update_components` */
    method UpdateComponents()
      modifies this
      ensures writes == old(writes) + UpdateWrites(updateComponents)
    {
      var c := CollectRows(updateComponents);
      var components := Gather(updateComponents, ServiceOf);
      writes := writes + [Write(BulkCreateOrUpdate, Sources(c.sources)),
                          Write(BulkUpdate, Services(components)),
                          Write(BulkCreateOrUpdate, Envs(c.envs)),
                          Write(BulkCreateOrUpdate, Ports(c.ports)),
                          Write(BulkCreateOrUpdate, Volumes(c.volumes)),
                          Write(BulkCreateOrUpdate, ExtendInfos(c.extendInfos)),
                          Write(BulkCreateOrUpdate, Monitors(c.monitors)),
                          Write(BulkCreateOrUpdate, Graphs(c.graphs))];
    }

    /** `components()`: the new components, then the updated ones, each
        given the list of edges leaving it, or none when no edge does. */
    method Components() returns (cpts: seq<Component>)
      modifies set c | c in newComponents + updateComponents
      ensures cpts == newComponents + updateComponents
      ensures forall i :: 0 <= i < |cpts| ==>
                cpts[i].componentDeps == DepsFor(GroupByServiceId(componentDeps), cpts[i].component.componentId)
    {
      cpts := newComponents + updateComponents;
      var grouped := GroupDeps(componentDeps);
      var i := 0;
      while i < |cpts|
        invariant 0 <= i <= |cpts|
        invariant forall j :: 0 <= j < i ==>
                    cpts[j].componentDeps == DepsFor(grouped, cpts[j].component.componentId)
      {
        var cpt := cpts[i];
        cpt.componentDeps := if cpt.component.componentId in grouped then Some(grouped[cpt.component.componentId]) else None;
        i := i + 1;
      }
    }
  }

  /** A component given an edge list by `components()` gets exactly the
      edges that leave it, and a component that no edge leaves gets none. */
  lemma DepsForSpec(deps: seq<Dep>, id: string)
    ensures DepsFor(GroupByServiceId(deps), id).None? <==> DepsOf(deps, id) == []
    ensures DepsFor(GroupByServiceId(deps), id).Some? ==> DepsFor(GroupByServiceId(deps), id).value == DepsOf(deps, id)
  {
    GroupByServiceIdSpec(deps, id);
  }
}
