/** The records the upgrade engine reads and writes, and the fields of the
    application template it looks at.

    A component's `component_id` and its `service_id` are the same value in
    the service model, so a single field `componentId` stands for both. A
    string field that may be missing from a JSON object or a database row is
    the empty string when it is missing (`None` and `""` are both false in
    the source's truthiness tests). */
module Entities {
  import opened Common

  /** The exceptions the modelled code raises or lets through. */
  datatype Exception =
    | ServiceHandleException(msg: string)
    | ErrAppUpgradeDeployFailed(msg: string)
    | AttributeError(detail: string)
    | KeyError(key: string)
    | ValueError(detail: string)
    | OtherException(name: string)

  // ---------------------------------------------------------------------
  // Component records
  // ---------------------------------------------------------------------

  /** The service row of a component (`cpt.component`). */
  datatype ServiceRecord = ServiceRecord(
    tenantId: string,
    componentId: string,
    serviceKey: string,
    serviceCname: string,
    serviceAlias: string)

  /** The component's source row: version and template share-UUID. */
  datatype ComponentSource = ComponentSource(
    componentId: string,
    serviceShareUuid: string,
    version: string)

  datatype Env = Env(componentId: string, attrName: string, attrValue: string)
  datatype Port = Port(componentId: string, containerPort: int)
  datatype Volume = Volume(componentId: string, volumeName: string)
  datatype Probe = Probe(componentId: string, mode: string)
  datatype ExtendInfo = ExtendInfo(componentId: string)
  datatype Monitor = Monitor(componentId: string, name: string)
  datatype Graph = Graph(componentId: string, title: string)
  datatype GroupRel = GroupRel(componentId: string, groupId: string)

  /** A component dependency edge (`TenantServiceRelation`). */
  datatype Dep = Dep(
    tenantId: string,
    serviceId: string,
    depServiceId: string,
    depServiceType: string,
    depOrder: int)

  /** A volume-mount dependency edge (`TenantServiceMountRelation`). */
  datatype MountDep = MountDep(
    tenantId: string,
    serviceId: string,
    depServiceId: string,
    mntName: string,
    mntDir: string)

  /** A component aggregate. Everything but its dependency list is fixed
      once the aggregate is built; `NewApp.components()` assigns
      `component_deps` on the shared objects. */
  class Component {
    const component: ServiceRecord
    const componentSource: ComponentSource
    const envs: seq<Env>
    const ports: seq<Port>
    const volumes: seq<Volume>
    const probe: Option<Probe>
    const extendInfo: Option<ExtendInfo>
    const monitors: seq<Monitor>
    const graphs: seq<Graph>
    const serviceGroupRel: GroupRel
    var componentDeps: Option<seq<Dep>>

    constructor (component: ServiceRecord, componentSource: ComponentSource,
                 envs: seq<Env>, ports: seq<Port>, volumes: seq<Volume>,
                 probe: Option<Probe>, extendInfo: Option<ExtendInfo>,
                 monitors: seq<Monitor>, graphs: seq<Graph>, serviceGroupRel: GroupRel)
      ensures this.component == component && this.componentSource == componentSource
      ensures this.envs == envs && this.ports == ports && this.volumes == volumes
      ensures this.probe == probe && this.extendInfo == extendInfo
      ensures this.monitors == monitors && this.graphs == graphs
      ensures this.serviceGroupRel == serviceGroupRel
      ensures this.componentDeps == None
    {
      this.component := component;
      this.componentSource := componentSource;
      this.envs := envs;
      this.ports := ports;
      this.volumes := volumes;
      this.probe := probe;
      this.extendInfo := extendInfo;
      this.monitors := monitors;
      this.graphs := graphs;
      this.serviceGroupRel := serviceGroupRel;
      this.componentDeps := None;
    }
  }

  // Key and value projections used to index components.
  function ComponentIdOf(c: Component): string { c.component.componentId }
  function ServiceKeyOf(c: Component): string { c.component.serviceKey }
  function ShareUuidOf(c: Component): string { c.componentSource.serviceShareUuid }
  function RecordOf(c: Component): ServiceRecord { c.component }
  function Itself<T>(x: T): T { x }

  /** `{cpt.component.service_key: cpt for cpt in components}` */
  function ComponentsByKey(cpts: seq<Component>): map<string, Component>
  {
    IndexMap(cpts, ServiceKeyOf, Itself)
  }

  /** The component ids of a list of components, in order. */
  function ComponentIds(cpts: seq<Component>): (ids: seq<string>)
    ensures |ids| == |cpts|
    ensures forall i :: 0 <= i < |cpts| ==> ids[i] == cpts[i].component.componentId
  {
    seq(|cpts|, i requires 0 <= i < |cpts| => cpts[i].component.componentId)
  }

  // ---------------------------------------------------------------------
  // The application template (parsed JSON)
  // ---------------------------------------------------------------------

  /** An entry of `mnt_relation_list`. */
  datatype MntRelation = MntRelation(serviceShareUuid: string, mntName: string, mntDir: string)

  /** An entry of a plugin binding's `attr` list; `destServiceId` is empty
      when the entry has none. */
  datatype PluginConfigTmpl = PluginConfigTmpl(
    serviceMetaType: string,
    injection: string,
    containerPort: int,
    attrs: string,
    protocol: string,
    destServiceId: string)

  /** An entry of `service_related_plugin_config`. */
  datatype PluginDepTmpl = PluginDepTmpl(
    serviceId: string,
    pluginKey: string,
    attr: seq<PluginConfigTmpl>,
    serviceMetaType: string,
    pluginStatus: bool,
    minMemory: int,
    minCpu: int)

  /** An entry of the template's `apps` list. `depServiceKeys` holds the
      `dep_service_key` of each `dep_service_map_list` item. */
  datatype AppTmpl = AppTmpl(
    serviceKey: string,
    serviceShareUuid: string,
    serviceId: string,
    depServiceKeys: seq<string>,
    mntRelations: seq<MntRelation>,
    pluginConfigs: seq<PluginDepTmpl>)

  /** An entry of `app_config_groups`; `configItems` lists the key/value
      pairs of `config_items` in document order. */
  datatype ConfigGroupTmpl = ConfigGroupTmpl(
    name: string,
    injectionType: string,
    configItems: seq<(string, string)>,
    componentKeys: seq<string>)

  datatype AppTemplate = AppTemplate(apps: seq<AppTmpl>, configGroups: seq<ConfigGroupTmpl>)

  function TmplServiceKeyOf(t: AppTmpl): string { t.serviceKey }
  function TmplServiceIdOf(t: AppTmpl): string { t.serviceId }
}
