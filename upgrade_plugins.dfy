/** Plugin bindings of an upgrade: the template's
    `service_related_plugin_config` entries become plugin relations and
    plugin config variables of the components they name, and
    `_deploy_plugins` tells the region where a plugin came from. */
module UpgradePlugins {
  import opened Common
  import opened Entities

  datatype PluginRecord = PluginRecord(pluginId: string, originShareId: string, origin: string)
  datatype BuildVersion = BuildVersion(buildVersion: string)
  /** A plugin with its build version (`Plugin` aggregate). */
  datatype Plugin = Plugin(plugin: PluginRecord, buildVersion: BuildVersion)

  /** `TenantServicePluginRelation` */
  datatype PluginRelation = PluginRelation(
    serviceId: string,
    pluginId: string,
    buildVersion: string,
    serviceMetaType: string,
    pluginStatus: bool,
    minMemory: int,
    minCpu: int)

  /** `ServicePluginConfigVar`; the destination fields are empty unless the
      template entry names a destination component. */
  datatype PluginConfigVar = PluginConfigVar(
    serviceId: string,
    pluginId: string,
    buildVersion: string,
    serviceMetaType: string,
    injection: string,
    containerPort: int,
    attrs: string,
    protocol: string,
    destServiceId: string,
    destServiceAlias: string)

  // ---------------------------------------------------------------------
  // plugin_from
  // ---------------------------------------------------------------------

  /** The `plugin_from` code sent to the region for a plugin's origin. */
  function PluginFrom(origin: string): (r: Option<string>)
    ensures r == Some("yb") <==> origin == "local_market"
    ensures r == Some("ys") <==> origin == "market"
    ensures r.None? <==> origin != "local_market" && origin != "market"
  {
    if origin == "local_market" then Some("yb")
    else if origin == "market" then Some("ys")
    else None
  }

  // ---------------------------------------------------------------------
  // Resolution of template service ids
  // ---------------------------------------------------------------------

  /** `{tmpl["service_id"]: tmpl["service_key"] for tmpl in apps}` */
  function ComponentKeys(apps: seq<AppTmpl>): map<string, string>
  {
    IndexMap(apps, TmplServiceIdOf, TmplServiceKeyOf)
  }

  function OriginShareIdOf(p: Plugin): string { p.plugin.originShareId }

  /** `{plugin.plugin.origin_share_id: plugin for plugin in plugins}` */
  function PluginsByShareId(plugins: seq<Plugin>): map<string, Plugin>
  {
    IndexMap(plugins, OriginShareIdOf, Itself)
  }

  /** The component a template service id stands for: its service key must
      be known and non-empty, and a component must have that key. */
  function Resolve(tmplServiceId: string, componentKeys: map<string, string>,
                   components: map<string, Component>): (r: Option<Component>)
    ensures r.Some? <==> tmplServiceId in componentKeys && Truthy(componentKeys[tmplServiceId])
                         && componentKeys[tmplServiceId] in components
    ensures r.Some? ==> r.value == components[componentKeys[tmplServiceId]]
  {
    if tmplServiceId !in componentKeys then None
    else
      var key := componentKeys[tmplServiceId];
      if !Truthy(key) || key !in components then None else Some(components[key])
  }

  /** A template `attr` entry names a destination that does not resolve. */
  predicate Dangling(pc: PluginConfigTmpl, componentKeys: map<string, string>, components: map<string, Component>)
  {
    Truthy(pc.destServiceId) && Resolve(pc.destServiceId, componentKeys, components).None?
  }

  // ---------------------------------------------------------------------
  // _create_plugin_configs
  // ---------------------------------------------------------------------

  function ConfigVar(component: Component, plugin: Plugin, pc: PluginConfigTmpl, dest: Option<Component>): PluginConfigVar
  {
    var base := PluginConfigVar(component.component.componentId, plugin.plugin.pluginId,
                                plugin.buildVersion.buildVersion, pc.serviceMetaType, pc.injection,
                                pc.containerPort, pc.attrs, pc.protocol, "", "");
    match dest
    case None => base
    case Some(d) => base.(destServiceId := d.component.componentId, destServiceAlias := d.component.serviceAlias)
  }

  /** The config variables of one plugin binding, or `None` when the
      binding must be ignored because an entry's destination does not
      resolve. Each variable belongs to the binding's component and
      plugin build, and points at the resolved destination component. */
  function PluginConfigs(component: Component, plugin: Plugin, attrs: seq<PluginConfigTmpl>,
                         componentKeys: map<string, string>, components: map<string, Component>)
    : (r: Option<seq<PluginConfigVar>>)
    ensures r.None? <==> exists i :: 0 <= i < |attrs| && Dangling(attrs[i], componentKeys, components)
    ensures r.Some? ==> |r.value| == |attrs|
    ensures r.Some? ==> forall i :: 0 <= i < |attrs| ==>
              && r.value[i].serviceId == component.component.componentId
              && r.value[i].pluginId == plugin.plugin.pluginId
              && r.value[i].buildVersion == plugin.buildVersion.buildVersion
              && r.value[i].serviceMetaType == attrs[i].serviceMetaType
              && r.value[i].destServiceId
                 == (if Truthy(attrs[i].destServiceId)
                     then Resolve(attrs[i].destServiceId, componentKeys, components).value.component.componentId
                     else "")
    decreases |attrs|
  {
    if attrs == [] then Some([])
    else
      var n := |attrs| - 1;
      var pc := attrs[n];
      var prefix := PluginConfigs(component, plugin, attrs[..n], componentKeys, components);
      assert forall i :: 0 <= i < n ==> attrs[..n][i] == attrs[i];
      if prefix.None? then None
      else if Dangling(pc, componentKeys, components) then None
      else
        var dest := if Truthy(pc.destServiceId) then Resolve(pc.destServiceId, componentKeys, components) else None;
        Some(prefix.value + [ConfigVar(component, plugin, pc, dest)])
  }

  lemma PluginConfigsStep(component: Component, plugin: Plugin, attrs: seq<PluginConfigTmpl>,
                          componentKeys: map<string, string>, components: map<string, Component>, i: nat)
    requires i < |attrs|
    requires PluginConfigs(component, plugin, attrs[..i], componentKeys, components).Some?
    ensures var r := PluginConfigs(component, plugin, attrs[..i + 1], componentKeys, components);
            var pc := attrs[i];
            && (r.None? <==> Dangling(pc, componentKeys, components))
            && (r.Some? ==> r.value == PluginConfigs(component, plugin, attrs[..i], componentKeys, components).value
                                       + [ConfigVar(component, plugin, pc,
                                                    if Truthy(pc.destServiceId)
                                                    then Resolve(pc.destServiceId, componentKeys, components)
                                                    else None)])
  {
    assert attrs[..i + 1][..i] == attrs[..i];
  }

  /** One `attr` entry of `_create_plugin_configs`: its config variable,
      pointed at the destination component when it names one, or `None`
      when that destination does not resolve. */
  method PluginConfigFor(component: Component, plugin: Plugin, pc: PluginConfigTmpl,
                         componentKeys: map<string, string>, components: map<string, Component>)
    returns (config: Option<PluginConfigVar>)
    ensures config.None? <==> Dangling(pc, componentKeys, components)
    ensures config.Some? ==> config.value == ConfigVar(component, plugin, pc,
                                                       if Truthy(pc.destServiceId)
                                                       then Resolve(pc.destServiceId, componentKeys, components)
                                                       else None)
  {
    var c := PluginConfigVar(component.component.componentId, plugin.plugin.pluginId,
                             plugin.buildVersion.buildVersion, pc.serviceMetaType, pc.injection,
                             pc.containerPort, pc.attrs, pc.protocol, "", "");
    var destServiceId := pc.destServiceId;
    if destServiceId != "" {
      if destServiceId !in componentKeys || componentKeys[destServiceId] == "" {
        return None;
      }
      var depComponentKey := componentKeys[destServiceId];
      if depComponentKey !in components {
        return None;
      }
      var depComponent := components[depComponentKey];
      c := c.(destServiceId := depComponent.component.componentId,
              destServiceAlias := depComponent.component.serviceAlias);
    }
    return Some(c);
  }

  /** `_create_plugin_configs`: the config variables and `False`, or `[]`
      and `True` as soon as an entry's destination does not resolve. */
  method CreatePluginConfigs(component: Component, plugin: Plugin, pluginConfigs: seq<PluginConfigTmpl>,
                             componentKeys: map<string, string>, components: map<string, Component>)
    returns (newPluginConfigs: seq<PluginConfigVar>, ignorePlugin: bool)
    ensures var spec := PluginConfigs(component, plugin, pluginConfigs, componentKeys, components);
            && (ignorePlugin <==> spec.None?)
            && newPluginConfigs == (if spec.Some? then spec.value else [])
  {
    newPluginConfigs := [];
    var i := 0;
    while i < |pluginConfigs|
      invariant 0 <= i <= |pluginConfigs|
      invariant PluginConfigs(component, plugin, pluginConfigs[..i], componentKeys, components) == Some(newPluginConfigs)
    {
      PluginConfigsStep(component, plugin, pluginConfigs, componentKeys, components, i);
      var config := PluginConfigFor(component, plugin, pluginConfigs[i], componentKeys, components);
      if config.None? {
        return [], true;
      }
      newPluginConfigs := newPluginConfigs + [config.value];
      i := i + 1;
    }
    assert pluginConfigs[..i] == pluginConfigs;
    return newPluginConfigs, false;
  }

  // ---------------------------------------------------------------------
  // _component_plugins
  // ---------------------------------------------------------------------

  /** The concatenated `service_related_plugin_config` lists of the apps. */
  function PluginDeps(apps: seq<AppTmpl>): (deps: seq<PluginDepTmpl>)
    decreases |apps|
  {
    if apps == [] then [] else PluginDeps(apps[..|apps| - 1]) + apps[|apps| - 1].pluginConfigs
  }

  /** What one plugin binding of the template contributes: its relation
      and its config variables. It is dropped exactly when its component
      key is unknown or empty, no component has that key, the plugin is
      not installed, or one of its entries names a destination that does
      not resolve. */
  function Bind(dep: PluginDepTmpl, plugins: map<string, Plugin>, componentKeys: map<string, string>,
                components: map<string, Component>): (r: Option<(PluginRelation, seq<PluginConfigVar>)>)
    ensures r.None? <==> || dep.serviceId !in componentKeys
                         || !Truthy(componentKeys[dep.serviceId])
                         || componentKeys[dep.serviceId] !in components
                         || dep.pluginKey !in plugins
                         || exists i :: 0 <= i < |dep.attr| && Dangling(dep.attr[i], componentKeys, components)
    ensures r.Some? ==>
              var component := components[componentKeys[dep.serviceId]];
              var plugin := plugins[dep.pluginKey];
              && r.value.0.serviceId == component.component.componentId
              && r.value.0.pluginId == plugin.plugin.pluginId
              && r.value.0.buildVersion == plugin.buildVersion.buildVersion
              && r.value.0.serviceMetaType == dep.serviceMetaType && r.value.0.pluginStatus == dep.pluginStatus
              && r.value.0.minMemory == dep.minMemory && r.value.0.minCpu == dep.minCpu
              && PluginConfigs(component, plugin, dep.attr, componentKeys, components).Some?
              && r.value.1 == PluginConfigs(component, plugin, dep.attr, componentKeys, components).value
              && |r.value.1| == |dep.attr|
              && forall i :: 0 <= i < |r.value.1| ==>
                   r.value.1[i].serviceId == r.value.0.serviceId && r.value.1[i].pluginId == r.value.0.pluginId
                   && r.value.1[i].buildVersion == r.value.0.buildVersion
  {
    var component := Resolve(dep.serviceId, componentKeys, components);
    if component.None? || dep.pluginKey !in plugins then None
    else
      var plugin := plugins[dep.pluginKey];
      var configs := PluginConfigs(component.value, plugin, dep.attr, componentKeys, components);
      if configs.None? then None
      else
        Some((PluginRelation(component.value.component.componentId, plugin.plugin.pluginId,
                             plugin.buildVersion.buildVersion, dep.serviceMetaType, dep.pluginStatus,
                             dep.minMemory, dep.minCpu),
              configs.value))
  }

  /** The relations and config variables of all bindings, in order. */
  function PluginBindings(deps: seq<PluginDepTmpl>, plugins: map<string, Plugin>, componentKeys: map<string, string>,
                          components: map<string, Component>): (r: (seq<PluginRelation>, seq<PluginConfigVar>))
    decreases |deps|
  {
    if deps == [] then ([], [])
    else
      var prefix := PluginBindings(deps[..|deps| - 1], plugins, componentKeys, components);
      match Bind(deps[|deps| - 1], plugins, componentKeys, components)
      case None => prefix
      case Some((rel, configs)) => (prefix.0 + [rel], prefix.1 + configs)
  }

  /** The loop of `_component_plugins` over the collected bindings. */
  method BindPlugins(pluginDeps: seq<PluginDepTmpl>, plugins: map<string, Plugin>,
                     componentKeys: map<string, string>, components: map<string, Component>)
    returns (newPluginDeps: seq<PluginRelation>, newPluginConfigs: seq<PluginConfigVar>)
    ensures (newPluginDeps, newPluginConfigs) == PluginBindings(pluginDeps, plugins, componentKeys, components)
  {
    newPluginDeps := [];
    newPluginConfigs := [];
    var i := 0;
    while i < |pluginDeps|
      invariant 0 <= i <= |pluginDeps|
      invariant (newPluginDeps, newPluginConfigs) == PluginBindings(pluginDeps[..i], plugins, componentKeys, components)
    {
      var pluginDep := pluginDeps[i];
      assert pluginDeps[..i + 1][..i] == pluginDeps[..i];
      if pluginDep.serviceId !in componentKeys || componentKeys[pluginDep.serviceId] == "" {
        i := i + 1;
        continue;
      }
      var componentKey := componentKeys[pluginDep.serviceId];
      if componentKey !in components {
        i := i + 1;
        continue;
      }
      var component := components[componentKey];
      if pluginDep.pluginKey !in plugins {
        i := i + 1;
        continue;
      }
      var plugin := plugins[pluginDep.pluginKey];
      var pluginConfigs, ignorePlugin := CreatePluginConfigs(component, plugin, pluginDep.attr, componentKeys, components);
      if ignorePlugin {
        i := i + 1;
        continue;
      }
      newPluginConfigs := newPluginConfigs + pluginConfigs;
      newPluginDeps := newPluginDeps + [PluginRelation(component.component.componentId, plugin.plugin.pluginId,
                                                       plugin.buildVersion.buildVersion, pluginDep.serviceMetaType,
                                                       pluginDep.pluginStatus, pluginDep.minMemory, pluginDep.minCpu)];
      i := i + 1;
    }
    assert pluginDeps[..i] == pluginDeps;
  }

  /** `_component_plugins`: the plugin relations and config variables of
      every template binding whose component, plugin and destinations
      all resolve. */
  method ComponentPlugins(plugins: seq<Plugin>, cpts: seq<Component>, template: AppTemplate)
    returns (newPluginDeps: seq<PluginRelation>, newPluginConfigs: seq<PluginConfigVar>)
    ensures (newPluginDeps, newPluginConfigs)
         == PluginBindings(PluginDeps(template.apps), PluginsByShareId(plugins),
                           ComponentKeys(template.apps), ComponentsByKey(cpts))
  {
    var pluginsByKey := PluginsByShareId(plugins);
    var components := ComponentsByKey(cpts);
    var componentKeys := ComponentKeys(template.apps);
    var apps := template.apps;
    var pluginDeps := [];
    var i := 0;
    while i < |apps|
      invariant 0 <= i <= |apps|
      invariant pluginDeps == PluginDeps(apps[..i])
    {
      assert apps[..i + 1][..i] == apps[..i];
      pluginDeps := pluginDeps + apps[i].pluginConfigs;
      i := i + 1;
    }
    assert apps[..i] == apps;
    newPluginDeps, newPluginConfigs := BindPlugins(pluginDeps, pluginsByKey, componentKeys, components);
  }

  // ---------------------------------------------------------------------
  // Properties of the bindings
  // ---------------------------------------------------------------------

  /** Every relation comes from a binding that resolved, and carries that
      binding's component and plugin build. */
  lemma {:induction false} PluginRelationsSound(deps: seq<PluginDepTmpl>, plugins: map<string, Plugin>,
                                                componentKeys: map<string, string>, components: map<string, Component>,
                                                k: nat)
    requires k < |PluginBindings(deps, plugins, componentKeys, components).0|
    ensures exists i :: 0 <= i < |deps| && Bind(deps[i], plugins, componentKeys, components).Some?
                        && Bind(deps[i], plugins, componentKeys, components).value.0
                           == PluginBindings(deps, plugins, componentKeys, components).0[k]
    decreases |deps|
  {
    var n := |deps| - 1;
    var prefix := deps[..n];
    var p := PluginBindings(prefix, plugins, componentKeys, components);
    if k < |p.0| {
      PluginRelationsSound(prefix, plugins, componentKeys, components, k);
      var i :| 0 <= i < |prefix| && Bind(prefix[i], plugins, componentKeys, components).Some?
               && Bind(prefix[i], plugins, componentKeys, components).value.0 == p.0[k];
      assert prefix[i] == deps[i];
    } else {
      assert Bind(deps[n], plugins, componentKeys, components).Some?;
    }
  }

  /** Every binding that resolves contributes its relation. */
  lemma {:induction false} PluginRelationsComplete(deps: seq<PluginDepTmpl>, plugins: map<string, Plugin>,
                                                   componentKeys: map<string, string>,
                                                   components: map<string, Component>, i: nat)
    requires i < |deps| && Bind(deps[i], plugins, componentKeys, components).Some?
    ensures Bind(deps[i], plugins, componentKeys, components).value.0
            in PluginBindings(deps, plugins, componentKeys, components).0
    decreases |deps|
  {
    var n := |deps| - 1;
    if i < n {
      var prefix := deps[..n];
      assert prefix[i] == deps[i];
      PluginRelationsComplete(prefix, plugins, componentKeys, components, i);
    }
  }

  /** An ignored binding leaves no config variables behind: every config
      variable belongs to a relation with the same component, plugin and
      build version. */
  lemma {:induction false} PluginConfigsHaveRelation(deps: seq<PluginDepTmpl>, plugins: map<string, Plugin>,
                                                     componentKeys: map<string, string>,
                                                     components: map<string, Component>, k: nat)
    requires k < |PluginBindings(deps, plugins, componentKeys, components).1|
    ensures var r := PluginBindings(deps, plugins, componentKeys, components);
            exists j :: 0 <= j < |r.0| && r.0[j].serviceId == r.1[k].serviceId
                        && r.0[j].pluginId == r.1[k].pluginId && r.0[j].buildVersion == r.1[k].buildVersion
    decreases |deps|
  {
    var n := |deps| - 1;
    var prefix := deps[..n];
    var p := PluginBindings(prefix, plugins, componentKeys, components);
    var r := PluginBindings(deps, plugins, componentKeys, components);
    if k < |p.1| {
      PluginConfigsHaveRelation(prefix, plugins, componentKeys, components, k);
      var j :| 0 <= j < |p.0| && p.0[j].serviceId == p.1[k].serviceId
               && p.0[j].pluginId == p.1[k].pluginId && p.0[j].buildVersion == p.1[k].buildVersion;
      var b := Bind(deps[n], plugins, componentKeys, components);
      if b.Some? {
        assert r.0[j] == p.0[j] && r.1[k] == p.1[k];
      }
    } else {
      var b := Bind(deps[n], plugins, componentKeys, components);
      assert b.Some?;
      assert r.0[|p.0|] == b.value.0;
      assert r.1[k] == b.value.1[k - |p.1|];
    }
  }
}
