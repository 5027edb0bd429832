/** Dependency and volume-mount edges built by `AppUpgrade` from the
    template and the new and updated components
    (`_create_component_deps`, `_create_volume_deps`, `_volume_exists`). */
module UpgradeEdges {
  import opened Common
  import opened Entities
  import opened Dependencies

  /** `{cpt.component_source.service_share_uuid: cpt.component for cpt in components}` */
  function ByShareUuid(cpts: seq<Component>): (index: map<string, ServiceRecord>)
    ensures forall k :: k in index <==> exists i :: 0 <= i < |cpts| && cpts[i].componentSource.serviceShareUuid == k
  {
    IndexMap(cpts, ShareUuidOf, RecordOf)
  }

  /** `_create_component_deps`: one "application" edge of order 0 per
      template dependency whose two share-UUIDs resolve among `components`
      (no suppression table). */
  method CreateComponentDeps(template: AppTemplate, components: seq<Component>) returns (deps: seq<Dep>)
    ensures deps == TemplateEdges(ByShareUuid(components), {}, ShareKeys, template.apps)
  {
    var index := ByShareUuid(components);
    deps := TemplateDeps(index, template.apps);
  }

  /** The outer loop of `_create_component_deps`, over the template entries. */
  method TemplateDeps(components: map<string, ServiceRecord>, apps: seq<AppTmpl>) returns (deps: seq<Dep>)
    ensures deps == TemplateEdges(components, {}, ShareKeys, apps)
  {
    deps := [];
    var i := 0;
    while i < |apps|
      invariant 0 <= i <= |apps|
      invariant deps == TemplateEdges(components, {}, ShareKeys, apps[..i])
    {
      var tmpl := apps[i];
      deps := EntryDeps(deps, components, tmpl.serviceShareUuid, tmpl.depServiceKeys);
      TemplateEdgesStep(components, {}, ShareKeys, apps, i);
      i := i + 1;
    }
    assert apps[..i] == apps;
  }

  /** The inner loop of `_create_component_deps`, over one entry's
      dependencies. */
  method EntryDeps(deps: seq<Dep>, components: map<string, ServiceRecord>, componentKey: string,
                   depKeys: seq<string>) returns (r: seq<Dep>)
    ensures r == deps + EntryEdges(components, {}, ShareKeys, componentKey, depKeys)
  {
    r := deps;
    var j := 0;
    while j < |depKeys|
      invariant 0 <= j <= |depKeys|
      invariant r == deps + EntryEdges(components, {}, ShareKeys, componentKey, depKeys[..j])
    {
      EntryEdgesStep(components, {}, ShareKeys, componentKey, depKeys, j);
      if componentKey in components {
        var component := components[componentKey];
        var depComponentKey := depKeys[j];
        if depComponentKey in components {
          var depComponent := components[depComponentKey];
          r := r + [DepEdge(component, depComponent)];
        }
      }
      j := j + 1;
    }
    assert depKeys[..j] == depKeys;
  }

  /** Without a suppression table, the component edges are exactly the
      resolvable template pairs: both share-UUIDs belong to some passed
      component, and the edge joins the records they resolve to. */
  lemma ComponentDepsMembers(template: AppTemplate, components: seq<Component>, e: Dep)
    ensures var index := ByShareUuid(components);
            e in TemplateEdges(index, {}, ShareKeys, template.apps)
            <==> exists i, j :: 0 <= i < |template.apps| && 0 <= j < |template.apps[i].depServiceKeys|
                   && template.apps[i].serviceShareUuid in index
                   && template.apps[i].depServiceKeys[j] in index
                   && e == DepEdge(index[template.apps[i].serviceShareUuid], index[template.apps[i].depServiceKeys[j]])
  {
    TemplateEdgesMembers(ByShareUuid(components), {}, ShareKeys, template.apps, e);
  }

  // ---------------------------------------------------------------------
  // Volumes
  // ---------------------------------------------------------------------

  function VolumeKeyOf(v: Volume): string { v.componentId + v.volumeName }

  /** `_volume_exists`: the volume table is keyed by the concatenation
      `service_id + volume_name`, and so is the lookup. */
  function VolumeExists(volumes: seq<Volume>, componentId: string, volumeName: string): (b: bool)
    ensures b <==> exists v :: v in volumes && v.componentId + v.volumeName == componentId + volumeName
  {
    var table := IndexMap(volumes, VolumeKeyOf, Itself);
    assert forall v :: v in volumes ==> VolumeKeyOf(v) in table by {
      forall v | v in volumes ensures VolumeKeyOf(v) in table {
        var i :| 0 <= i < |volumes| && volumes[i] == v;
      }
    }
    componentId + volumeName in table
  }

  /** Component ids in the platform have one fixed length; under that
      condition the concatenated key identifies exactly one (component,
      volume name) pair. */
  lemma VolumeExistsExact(volumes: seq<Volume>, componentId: string, volumeName: string)
    requires forall v :: v in volumes ==> |v.componentId| == |componentId|
    ensures VolumeExists(volumes, componentId, volumeName) <==> Volume(componentId, volumeName) in volumes
  {
    if VolumeExists(volumes, componentId, volumeName) {
      var v :| v in volumes && v.componentId + v.volumeName == componentId + volumeName;
      ConcatSplit(v.componentId, v.volumeName, componentId, volumeName);
    }
  }

  lemma ConcatSplit(a: string, x: string, b: string, y: string)
    requires |a| == |b| && a + x == b + y
    ensures a == b && x == y
  {
    assert a == (a + x)[..|a|];
    assert b == (b + y)[..|b|];
    assert x == (a + x)[|a|..];
    assert y == (b + y)[|b|..];
  }

  /** Without that condition the key conflates pairs: volume "c" of
      component "ab" is reported as volume "bc" of component "a". */
  lemma VolumeKeyConflates()
    ensures VolumeExists([Volume("ab", "c")], "a", "bc")
    ensures Volume("a", "bc") !in [Volume("ab", "c")]
  {
    assert Volume("ab", "c").componentId + Volume("ab", "c").volumeName == "a" + "bc";
  }

  /** All volumes of the passed components, component by component. */
  function AllVolumes(cpts: seq<Component>): (vs: seq<Volume>)
    ensures forall v :: v in vs <==> exists i :: 0 <= i < |cpts| && v in cpts[i].volumes
    decreases |cpts|
  {
    if cpts == [] then []
    else
      var prefix := cpts[..|cpts| - 1];
      assert forall i :: 0 <= i < |prefix| ==> prefix[i] == cpts[i];
      AllVolumes(prefix) + cpts[|cpts| - 1].volumes
  }

  /** The mount edge from `own` to `dep` for mount relation `m`. */
  function MountEdge(own: ServiceRecord, dep: ServiceRecord, m: MntRelation): MountDep
  {
    MountDep(own.tenantId, own.componentId, dep.componentId, m.mntName, m.mntDir)
  }

  /** The error raised when the dependent component of a mount relation does
      not resolve: the log statement reads `service_id` of `None`. */
  const NoneServiceId := AttributeError("'NoneType' object has no attribute 'service_id'")

  /** The outcome of one mount relation of a resolved component, as written. */
  function MountAsWritten(index: map<string, ServiceRecord>, volumes: seq<Volume>, own: ServiceRecord,
                          m: MntRelation): Result<seq<MountDep>, Exception>
  {
    if m.serviceShareUuid !in index then Failure(NoneServiceId)
    else if !VolumeExists(volumes, index[m.serviceShareUuid].componentId, m.mntName) then Success([])
    else Success([MountEdge(own, index[m.serviceShareUuid], m)])
  }

  function MountsAsWritten(index: map<string, ServiceRecord>, volumes: seq<Volume>, own: ServiceRecord,
                           mnts: seq<MntRelation>): Result<seq<MountDep>, Exception>
    decreases |mnts|
  {
    if mnts == [] then Success([])
    else
      match MountsAsWritten(index, volumes, own, mnts[..|mnts| - 1])
      case Failure(err) => Failure(err)
      case Success(prev) =>
        match MountAsWritten(index, volumes, own, mnts[|mnts| - 1])
        case Failure(err) => Failure(err)
        case Success(more) => Success(prev + more)
  }

  function EntryMountsAsWritten(index: map<string, ServiceRecord>, volumes: seq<Volume>,
                                t: AppTmpl): Result<seq<MountDep>, Exception>
  {
    if t.serviceShareUuid !in index then Success([])
    else MountsAsWritten(index, volumes, index[t.serviceShareUuid], t.mntRelations)
  }

  /** `_create_volume_deps` as written: template entries whose own
      component does not resolve are skipped, but a mount relation whose
      dependent component does not resolve raises. */
  function VolumeDepsAsWritten(index: map<string, ServiceRecord>, volumes: seq<Volume>,
                               apps: seq<AppTmpl>): Result<seq<MountDep>, Exception>
    decreases |apps|
  {
    if apps == [] then Success([])
    else
      match VolumeDepsAsWritten(index, volumes, apps[..|apps| - 1])
      case Failure(err) => Failure(err)
      case Success(prev) =>
        match EntryMountsAsWritten(index, volumes, apps[|apps| - 1])
        case Failure(err) => Failure(err)
        case Success(more) => Success(prev + more)
  }

  /** `_create_volume_deps`, modelled as written. */
  method CreateVolumeDeps(template: AppTemplate, rawComponents: seq<Component>)
    returns (r: Result<seq<MountDep>, Exception>)
    ensures r == VolumeDepsAsWritten(ByShareUuid(rawComponents), AllVolumes(rawComponents), template.apps)
  {
    var volumes := CollectVolumes(rawComponents);
    var components := ByShareUuid(rawComponents);
    var apps := template.apps;
    var deps := [];
    var i := 0;
    while i < |apps|
      invariant 0 <= i <= |apps|
      invariant VolumeDepsAsWritten(components, volumes, apps[..i]) == Success(deps)
    {
      var tmpl := apps[i];
      var componentKey := tmpl.serviceShareUuid;
      if componentKey !in components {
        VolumeDepsStep(components, volumes, apps, i, deps, Success([]));
        assert deps + [] == deps;
        i := i + 1;
        continue;
      }
      var component := components[componentKey];
      var entry := CreateEntryMounts(components, volumes, component, tmpl.mntRelations);
      VolumeDepsStep(components, volumes, apps, i, deps, entry);
      if entry.Failure? {
        r := entry;
        VolumeDepsFailurePersists(components, volumes, apps, i + 1);
        return;
      }
      var entryDeps := entry.value;
      deps := deps + entryDeps;
      i := i + 1;
    }
    assert apps[..i] == apps;
    r := Success(deps);
  }

  /** One more template entry extends the edges with its own, or fails
      with it. */
  lemma VolumeDepsStep(index: map<string, ServiceRecord>, volumes: seq<Volume>, apps: seq<AppTmpl>, i: nat,
                       deps: seq<MountDep>, entry: Result<seq<MountDep>, Exception>)
    requires i < |apps| && entry == EntryMountsAsWritten(index, volumes, apps[i])
    requires VolumeDepsAsWritten(index, volumes, apps[..i]) == Success(deps)
    ensures VolumeDepsAsWritten(index, volumes, apps[..i + 1])
            == if entry.Failure? then Failure(entry.error) else Success(deps + entry.value)
  {
    assert apps[..i + 1][..i] == apps[..i];
    assert apps[..i + 1][i] == apps[i];
  }

  /** The inner loop of `_create_volume_deps`, over the mount relations
      of one template entry whose own component resolved. */
  method CreateEntryMounts(components: map<string, ServiceRecord>, volumes: seq<Volume>, component: ServiceRecord,
                           mnts: seq<MntRelation>) returns (r: Result<seq<MountDep>, Exception>)
    ensures r == MountsAsWritten(components, volumes, component, mnts)
    ensures r.Failure? ==> r.error == NoneServiceId
  {
    var entryDeps := [];
    var j := 0;
    while j < |mnts|
      invariant 0 <= j <= |mnts|
      invariant MountsAsWritten(components, volumes, component, mnts[..j]) == Success(entryDeps)
    {
      var dep := mnts[j];
      var depComponentKey := dep.serviceShareUuid;
      if depComponentKey !in components {
        r := Failure(NoneServiceId);
        assert mnts[..j + 1][..j] == mnts[..j];
        MountsFailurePersists(components, volumes, component, mnts, j + 1);
        return;
      }
      var depComponent := components[depComponentKey];
      MountsStep(components, volumes, component, mnts, j, entryDeps);
      if VolumeExists(volumes, depComponent.componentId, dep.mntName) {
        entryDeps := entryDeps + [MountEdge(component, depComponent, dep)];
      } else {
        assert entryDeps + [] == entryDeps;
      }
      j := j + 1;
    }
    assert mnts[..j] == mnts;
    r := Success(entryDeps);
  }

  /** `volumes.extend(cpt.volumes)` for every passed component. */
  method CollectVolumes(rawComponents: seq<Component>) returns (volumes: seq<Volume>)
    ensures volumes == AllVolumes(rawComponents)
  {
    volumes := [];
    var k := 0;
    while k < |rawComponents|
      invariant 0 <= k <= |rawComponents|
      invariant volumes == AllVolumes(rawComponents[..k])
    {
      volumes := volumes + rawComponents[k].volumes;
      assert rawComponents[..k + 1][..k] == rawComponents[..k];
      k := k + 1;
    }
    assert rawComponents[..k] == rawComponents;
  }

  lemma MountsStep(index: map<string, ServiceRecord>, volumes: seq<Volume>, own: ServiceRecord,
                   mnts: seq<MntRelation>, j: nat, acc: seq<MountDep>)
    requires j < |mnts| && mnts[j].serviceShareUuid in index
    requires MountsAsWritten(index, volumes, own, mnts[..j]) == Success(acc)
    ensures var dep := index[mnts[j].serviceShareUuid];
            MountsAsWritten(index, volumes, own, mnts[..j + 1])
            == Success(acc + if VolumeExists(volumes, dep.componentId, mnts[j].mntName)
                             then [MountEdge(own, dep, mnts[j])] else [])
  {
    assert mnts[..j + 1][..j] == mnts[..j];
  }

  lemma {:induction false} MountsFailurePersists(index: map<string, ServiceRecord>, volumes: seq<Volume>,
                                                 own: ServiceRecord, mnts: seq<MntRelation>, n: nat)
    requires n <= |mnts|
    requires MountsAsWritten(index, volumes, own, mnts[..n]) == Failure(NoneServiceId)
    ensures MountsAsWritten(index, volumes, own, mnts) == Failure(NoneServiceId)
    decreases |mnts| - n
  {
    if n < |mnts| {
      assert mnts[..n + 1][..n] == mnts[..n];
      MountsFailurePersists(index, volumes, own, mnts, n + 1);
    } else {
      assert mnts[..n] == mnts;
    }
  }

  lemma {:induction false} VolumeDepsFailurePersists(index: map<string, ServiceRecord>, volumes: seq<Volume>,
                                                     apps: seq<AppTmpl>, n: nat)
    requires 0 < n <= |apps|
    requires VolumeDepsAsWritten(index, volumes, apps[..n]) == Failure(NoneServiceId)
    ensures VolumeDepsAsWritten(index, volumes, apps) == Failure(NoneServiceId)
    decreases |apps| - n
  {
    if n < |apps| {
      assert apps[..n + 1][..n] == apps[..n];
      VolumeDepsFailurePersists(index, volumes, apps, n + 1);
    } else {
      assert apps[..n] == apps;
    }
  }

  // ---------------------------------------------------------------------
  // The evidently intended behaviour: an unresolved dependent component is
  // logged and skipped like every other unresolved reference.
  // ---------------------------------------------------------------------

  /** A mount relation `m` of template entry `t` yields edge `e`: both
      share-UUIDs resolve, the dependent component has a volume named
      `m.mntName`, and `e` joins the two components. */
  ghost predicate MountEmits(index: map<string, ServiceRecord>, volumes: seq<Volume>, t: AppTmpl,
                             m: MntRelation, e: MountDep)
  {
    && t.serviceShareUuid in index && m.serviceShareUuid in index
    && VolumeExists(volumes, index[m.serviceShareUuid].componentId, m.mntName)
    && e == MountEdge(index[t.serviceShareUuid], index[m.serviceShareUuid], m)
  }

  function MountEdges(index: map<string, ServiceRecord>, volumes: seq<Volume>, t: AppTmpl,
                      mnts: seq<MntRelation>): seq<MountDep>
    decreases |mnts|
  {
    if mnts == [] then []
    else
      var m := mnts[|mnts| - 1];
      MountEdges(index, volumes, t, mnts[..|mnts| - 1])
      + (if t.serviceShareUuid in index && m.serviceShareUuid in index
            && VolumeExists(volumes, index[m.serviceShareUuid].componentId, m.mntName)
         then [MountEdge(index[t.serviceShareUuid], index[m.serviceShareUuid], m)]
         else [])
  }

  /** `_create_volume_deps` with the unresolved dependent component skipped. */
  function VolumeDeps(index: map<string, ServiceRecord>, volumes: seq<Volume>, apps: seq<AppTmpl>): seq<MountDep>
    decreases |apps|
  {
    if apps == [] then []
    else
      var t := apps[|apps| - 1];
      VolumeDeps(index, volumes, apps[..|apps| - 1]) + MountEdges(index, volumes, t, t.mntRelations)
  }

  lemma {:induction false} MountEdgesSound(index: map<string, ServiceRecord>, volumes: seq<Volume>, t: AppTmpl,
                                           mnts: seq<MntRelation>, e: MountDep)
    requires e in MountEdges(index, volumes, t, mnts)
    ensures exists j :: 0 <= j < |mnts| && MountEmits(index, volumes, t, mnts[j], e)
    decreases |mnts|
  {
    var n := |mnts| - 1;
    var prefix := mnts[..n];
    if e in MountEdges(index, volumes, t, prefix) {
      MountEdgesSound(index, volumes, t, prefix, e);
      var j :| 0 <= j < |prefix| && MountEmits(index, volumes, t, prefix[j], e);
      assert mnts[j] == prefix[j];
    } else {
      assert MountEmits(index, volumes, t, mnts[n], e);
    }
  }

  lemma {:induction false} MountEdgesComplete(index: map<string, ServiceRecord>, volumes: seq<Volume>, t: AppTmpl,
                                              mnts: seq<MntRelation>, j: nat, e: MountDep)
    requires j < |mnts| && MountEmits(index, volumes, t, mnts[j], e)
    ensures e in MountEdges(index, volumes, t, mnts)
    decreases |mnts|
  {
    var n := |mnts| - 1;
    if j < n {
      var prefix := mnts[..n];
      assert prefix[j] == mnts[j];
      MountEdgesComplete(index, volumes, t, prefix, j, e);
    }
  }

  lemma {:induction false} VolumeDepsSound(index: map<string, ServiceRecord>, volumes: seq<Volume>,
                                           apps: seq<AppTmpl>, e: MountDep)
    requires e in VolumeDeps(index, volumes, apps)
    ensures exists i, j :: 0 <= i < |apps| && 0 <= j < |apps[i].mntRelations|
              && MountEmits(index, volumes, apps[i], apps[i].mntRelations[j], e)
    decreases |apps|
  {
    var n := |apps| - 1;
    var prefix := apps[..n];
    if e in VolumeDeps(index, volumes, prefix) {
      VolumeDepsSound(index, volumes, prefix, e);
      var i, j :| 0 <= i < |prefix| && 0 <= j < |prefix[i].mntRelations|
                  && MountEmits(index, volumes, prefix[i], prefix[i].mntRelations[j], e);
      assert apps[i] == prefix[i];
    } else {
      MountEdgesSound(index, volumes, apps[n], apps[n].mntRelations, e);
    }
  }

  lemma {:induction false} VolumeDepsComplete(index: map<string, ServiceRecord>, volumes: seq<Volume>,
                                              apps: seq<AppTmpl>, i: nat, j: nat, e: MountDep)
    requires i < |apps| && j < |apps[i].mntRelations|
    requires MountEmits(index, volumes, apps[i], apps[i].mntRelations[j], e)
    ensures e in VolumeDeps(index, volumes, apps)
    decreases |apps|
  {
    var n := |apps| - 1;
    if i < n {
      var prefix := apps[..n];
      assert prefix[i] == apps[i];
      VolumeDepsComplete(index, volumes, prefix, i, j, e);
    } else {
      MountEdgesComplete(index, volumes, apps[n], apps[n].mntRelations, j, e);
    }
  }

  /** A mount edge is produced exactly when a template entry's own
      component and the dependent component both resolve and the dependent
      component owns a volume with the relation's mount name. */
  lemma VolumeDepsMembers(index: map<string, ServiceRecord>, volumes: seq<Volume>, apps: seq<AppTmpl>, e: MountDep)
    ensures e in VolumeDeps(index, volumes, apps)
            <==> exists i, j :: 0 <= i < |apps| && 0 <= j < |apps[i].mntRelations|
                   && MountEmits(index, volumes, apps[i], apps[i].mntRelations[j], e)
  {
    if e in VolumeDeps(index, volumes, apps) {
      VolumeDepsSound(index, volumes, apps, e);
    }
    if exists i, j :: 0 <= i < |apps| && 0 <= j < |apps[i].mntRelations|
         && MountEmits(index, volumes, apps[i], apps[i].mntRelations[j], e) {
      var i, j :| 0 <= i < |apps| && 0 <= j < |apps[i].mntRelations|
                  && MountEmits(index, volumes, apps[i], apps[i].mntRelations[j], e);
      VolumeDepsComplete(index, volumes, apps, i, j, e);
    }
  }

  /** Some resolved template entry has a mount relation whose dependent
      component does not resolve. */
  ghost predicate HasDanglingMount(index: map<string, ServiceRecord>, apps: seq<AppTmpl>)
  {
    exists i, j :: 0 <= i < |apps| && 0 <= j < |apps[i].mntRelations|
      && apps[i].serviceShareUuid in index && apps[i].mntRelations[j].serviceShareUuid !in index
  }

  /** One of the mount relations names a dependent component that does
      not resolve. */
  ghost predicate Dangles(index: map<string, ServiceRecord>, mnts: seq<MntRelation>)
  {
    exists j :: 0 <= j < |mnts| && mnts[j].serviceShareUuid !in index
  }

  lemma DanglesSnoc(index: map<string, ServiceRecord>, mnts: seq<MntRelation>)
    requires mnts != []
    ensures Dangles(index, mnts)
            <==> Dangles(index, mnts[..|mnts| - 1]) || mnts[|mnts| - 1].serviceShareUuid !in index
  {
    var prefix := mnts[..|mnts| - 1];
    if Dangles(index, prefix) {
      var j :| 0 <= j < |prefix| && prefix[j].serviceShareUuid !in index;
      assert mnts[j] == prefix[j];
    }
    if Dangles(index, mnts) {
      var j :| 0 <= j < |mnts| && mnts[j].serviceShareUuid !in index;
      if j < |prefix| {
        assert prefix[j] == mnts[j];
      }
    }
  }

  lemma {:induction false} MountsAsWrittenAgree(index: map<string, ServiceRecord>, volumes: seq<Volume>,
                                                t: AppTmpl, mnts: seq<MntRelation>)
    requires t.serviceShareUuid in index
    ensures MountsAsWritten(index, volumes, index[t.serviceShareUuid], mnts)
            == if Dangles(index, mnts) then Failure(NoneServiceId) else Success(MountEdges(index, volumes, t, mnts))
    decreases |mnts|
  {
    if mnts != [] {
      var n := |mnts| - 1;
      MountsAsWrittenAgree(index, volumes, t, mnts[..n]);
      DanglesSnoc(index, mnts);
    }
  }

  /** The as-written builder and the intended one agree except that the
      former raises exactly when a resolved entry has a dangling mount
      relation. */
  lemma {:induction false} VolumeDepsAsWrittenAgree(index: map<string, ServiceRecord>, volumes: seq<Volume>,
                                                    apps: seq<AppTmpl>)
    ensures VolumeDepsAsWritten(index, volumes, apps)
            == if HasDanglingMount(index, apps) then Failure(NoneServiceId)
               else Success(VolumeDeps(index, volumes, apps))
    decreases |apps|
  {
    if apps != [] {
      var n := |apps| - 1;
      var prefix := apps[..n];
      var t := apps[n];
      VolumeDepsAsWrittenAgree(index, volumes, prefix);
      assert forall k :: 0 <= k < n ==> prefix[k] == apps[k];
      if t.serviceShareUuid in index {
        MountsAsWrittenAgree(index, volumes, t, t.mntRelations);
      } else {
        assert MountEdges(index, volumes, t, t.mntRelations) == [] by {
          NoOwnNoMounts(index, volumes, t, t.mntRelations);
        }
      }
      if HasDanglingMount(index, prefix) {
        var i, j :| 0 <= i < |prefix| && 0 <= j < |prefix[i].mntRelations|
                    && prefix[i].serviceShareUuid in index && prefix[i].mntRelations[j].serviceShareUuid !in index;
        assert apps[i] == prefix[i];
      } else if HasDanglingMount(index, apps) {
        var i, j :| 0 <= i < |apps| && 0 <= j < |apps[i].mntRelations|
                    && apps[i].serviceShareUuid in index && apps[i].mntRelations[j].serviceShareUuid !in index;
        assert i == n;
      } else {
        if t.serviceShareUuid in index {
          forall j | 0 <= j < |t.mntRelations| ensures t.mntRelations[j].serviceShareUuid in index {
            assert apps[n] == t;
          }
        }
      }
    }
  }

  lemma {:induction false} NoOwnNoMounts(index: map<string, ServiceRecord>, volumes: seq<Volume>, t: AppTmpl,
                                         mnts: seq<MntRelation>)
    requires t.serviceShareUuid !in index
    ensures MountEdges(index, volumes, t, mnts) == []
    decreases |mnts|
  {
    if mnts != [] {
      NoOwnNoMounts(index, volumes, t, mnts[..|mnts| - 1]);
    }
  }

  /** The input that shows the defect: a component "a" whose template entry
      mounts a volume of share-UUID "u2", which no component has. The
      as-written builder raises; the intended one produces no edge. */
  lemma DanglingMountRaises()
    ensures var a := ServiceRecord("t", "a", "web", "web", "gr00000a");
            var index := map["u1" := a];
            var apps := [AppTmpl("web", "u1", "s1", [], [MntRelation("u2", "data", "/data")], [])];
            VolumeDepsAsWritten(index, [], apps) == Failure(NoneServiceId)
            && VolumeDeps(index, [], apps) == []
  {
    var a := ServiceRecord("t", "a", "web", "web", "gr00000a");
    var index := map["u1" := a];
    var m := MntRelation("u2", "data", "/data");
    var apps := [AppTmpl("web", "u1", "s1", [], [m], [])];
    assert apps[..0] == [];
    assert [m][..0] == [];
    assert MountsAsWritten(index, [], a, [m]) == Failure(NoneServiceId);
  }
}
