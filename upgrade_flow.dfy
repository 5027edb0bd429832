/** The phases of an upgrade (`AppUpgrade.upgrade`): install plugins, sync
    the new app to the region, save it locally behind a snapshot, deploy.
    Every phase that fails marks the upgrade record and stops the upgrade.

    The region, the repositories and the rollback are outside the model:
    what each of them does is an input (`Oracle`), and the calls the
    upgrade makes are recorded, in order, as `Step`s. */
module UpgradeFlow {
  import opened Common
  import opened Entities

  datatype UpgradeStatus = Upgrading | UpgradeFailed | Deploying | DeployFailed

  datatype UpgradeType = Upgrade

  /** One event of the region's batch deploy answer. */
  datatype DeployEvent = DeployEvent(serviceId: string, eventId: string)

  /** A child record of the upgrade record, one per deployed component. */
  datatype ServiceUpgradeRecord = ServiceUpgradeRecord(
    serviceId: string,
    serviceCname: string,
    upgradeType: UpgradeType,
    eventId: string,
    status: UpgradeStatus)

  /** What each collaborator does when it is called: `None` is success. */
  datatype Oracle = Oracle(
    installPlugins: Option<Exception>,
    syncNewApp: Option<Exception>,
    createSnapshot: Result<string, Exception>,
    saveNewApp: Option<Exception>,
    rollback: Option<Exception>,
    batchDeploy: Result<seq<DeployEvent>, Exception>)

  /** A call the upgrade makes, in the order it makes them. */
  datatype Step =
    | InstallPlugins
    | SyncNewApp
    | CreateSnapshot
    | SaveNewApp
    | SaveRecord(status: UpgradeStatus, snapshotId: string, version: string)
    | Rollback
    | BatchDeploy(componentIds: seq<string>)
    | CreateComponentRecords(records: seq<ServiceUpgradeRecord>)

  const NoSnapshot := AttributeError("'NoneType' object has no attribute 'snapshot_id'")
  const UnexpectedError := ServiceHandleException("unexpected error")

  // ---------------------------------------------------------------------
  // Child records
  // ---------------------------------------------------------------------

  function EventServiceIdOf(e: DeployEvent): string { e.serviceId }
  function EventIdOf(e: DeployEvent): string { e.eventId }

  /** `{event["service_id"]: event["event_id"] for event in events}` */
  function EventIds(events: seq<DeployEvent>): map<string, string>
  {
    IndexMap(events, EventServiceIdOf, EventIdOf)
  }

  function ComponentRecord(cpt: Component, eventId: string): ServiceUpgradeRecord
  {
    ServiceUpgradeRecord(cpt.component.componentId, cpt.component.serviceCname, Upgrade, eventId, Upgrading)
  }

  /** One upgrading child record per component that the region answered
      with a non-empty event id, in component order. */
  function ComponentRecords(cpts: seq<Component>, eventIds: map<string, string>): (rs: seq<ServiceUpgradeRecord>)
    ensures |rs| <= |cpts|
    ensures forall k :: 0 <= k < |rs| ==>
              && rs[k].serviceId in eventIds && Truthy(rs[k].eventId)
              && rs[k].eventId == eventIds[rs[k].serviceId] && rs[k].status == Upgrading
    decreases |cpts|
  {
    if cpts == [] then []
    else
      var cpt := cpts[|cpts| - 1];
      var id := cpt.component.componentId;
      ComponentRecords(cpts[..|cpts| - 1], eventIds)
      + (if id in eventIds && Truthy(eventIds[id]) then [ComponentRecord(cpt, eventIds[id])] else [])
  }

  /** Every component the region gave a non-empty event id gets its record. */
  lemma {:induction false} ComponentRecordsComplete(cpts: seq<Component>, eventIds: map<string, string>, i: nat)
    requires i < |cpts|
    requires cpts[i].component.componentId in eventIds && Truthy(eventIds[cpts[i].component.componentId])
    ensures ComponentRecord(cpts[i], eventIds[cpts[i].component.componentId]) in ComponentRecords(cpts, eventIds)
    decreases |cpts|
  {
    var n := |cpts| - 1;
    if i < n {
      var prefix := cpts[..n];
      assert prefix[i] == cpts[i];
      ComponentRecordsComplete(prefix, eventIds, i);
    }
  }

  /** Every record belongs to one of the components. */
  lemma {:induction false} ComponentRecordsSound(cpts: seq<Component>, eventIds: map<string, string>, k: nat)
    requires k < |ComponentRecords(cpts, eventIds)|
    ensures exists i :: 0 <= i < |cpts| && cpts[i].component.componentId in eventIds
                        && ComponentRecords(cpts, eventIds)[k] == ComponentRecord(cpts[i], eventIds[cpts[i].component.componentId])
    decreases |cpts|
  {
    var n := |cpts| - 1;
    var prefix := cpts[..n];
    var p := ComponentRecords(prefix, eventIds);
    if k < |p| {
      ComponentRecordsSound(prefix, eventIds, k);
      var i :| 0 <= i < |prefix| && prefix[i].component.componentId in eventIds
               && p[k] == ComponentRecord(prefix[i], eventIds[prefix[i].component.componentId]);
      assert prefix[i] == cpts[i];
    }
  }

  /** The loop of `_create_component_record`. */
  method BuildComponentRecords(cpts: seq<Component>, eventIds: map<string, string>)
    returns (records: seq<ServiceUpgradeRecord>)
    ensures records == ComponentRecords(cpts, eventIds)
  {
    records := [];
    var i := 0;
    while i < |cpts|
      invariant 0 <= i <= |cpts|
      invariant records == ComponentRecords(cpts[..i], eventIds)
    {
      var cpt := cpts[i];
      assert cpts[..i + 1][..i] == cpts[..i];
      var eventId := if cpt.component.componentId in eventIds then eventIds[cpt.component.componentId] else "";
      if eventId == "" {
        i := i + 1;
        continue;
      }
      records := records + [ServiceUpgradeRecord(cpt.component.componentId, cpt.component.serviceCname,
                                                 Upgrade, eventId, Upgrading)];
      i := i + 1;
    }
    assert cpts[..i] == cpts;
  }

  // ---------------------------------------------------------------------
  // The phases, as a function of what the collaborators do
  // ---------------------------------------------------------------------

  /** The calls made, the record's final status and snapshot id, and the
      exception the upgrade ends with, if any. */
  datatype Trace = Trace(steps: seq<Step>, status: UpgradeStatus, snapshotId: string, error: Option<Exception>)

  /** `_save_app`: the calls it makes and how it ends. Without original
      components there is no snapshot, and reading its id raises after the
      new app has been saved. */
  function SaveApp(o: Oracle, originalEmpty: bool, version: string): (r: (seq<Step>, Result<string, Exception>))
  {
    if originalEmpty then
      ([SaveNewApp], Failure(if o.saveNewApp.Some? then o.saveNewApp.value else NoSnapshot))
    else if o.createSnapshot.Failure? then
      ([CreateSnapshot], Failure(o.createSnapshot.error))
    else if o.saveNewApp.Some? then
      ([CreateSnapshot, SaveNewApp], Failure(o.saveNewApp.value))
    else
      ([CreateSnapshot, SaveNewApp, SaveRecord(Upgrading, o.createSnapshot.value, version)],
       Success(o.createSnapshot.value))
  }

  /** `_deploy`: a failed batch deploy marks the record and is reported as
      a deploy failure when the region raised a handled exception. */
  function Deploy(o: Oracle, cpts: seq<Component>, version: string, snapshotId: string): (t: Trace)
  {
    var ids := ComponentIds(cpts);
    match o.batchDeploy
    case Failure(e) =>
      Trace([BatchDeploy(ids), SaveRecord(DeployFailed, "", version)], DeployFailed, "",
            Some(if e.ServiceHandleException? then ErrAppUpgradeDeployFailed(e.msg) else e))
    case Success(events) =>
      Trace([BatchDeploy(ids), CreateComponentRecords(ComponentRecords(cpts, EventIds(events)))],
            Upgrading, snapshotId, None)
  }

  /** `upgrade()` */
  function Run(o: Oracle, originalEmpty: bool, cpts: seq<Component>, version: string): (t: Trace)
  {
    if o.installPlugins.Some? then
      Trace([InstallPlugins, SaveRecord(UpgradeFailed, "", version)], UpgradeFailed, "", o.installPlugins)
    else if o.syncNewApp.Some? then
      Trace([InstallPlugins, SyncNewApp, SaveRecord(UpgradeFailed, "", version)], UpgradeFailed, "", o.syncNewApp)
    else
      var save := SaveApp(o, originalEmpty, version);
      var before := [InstallPlugins, SyncNewApp] + save.0;
      match save.1
      case Failure(_) =>
        Trace(before + [SaveRecord(UpgradeFailed, "", version), Rollback], UpgradeFailed, "",
              Some(if o.rollback.Some? then o.rollback.value else UnexpectedError))
      case Success(snapshotId) =>
        var deploy := Deploy(o, cpts, version, snapshotId);
        Trace(before + deploy.steps, deploy.status, deploy.snapshotId, deploy.error)
  }

  // ---------------------------------------------------------------------
  // The upgrade, with its record
  // ---------------------------------------------------------------------

  /** `AppUpgradeRecord` */
  class UpgradeRecord {
    var status: UpgradeStatus
    var snapshotId: string
    var version: string

    constructor (status: UpgradeStatus, snapshotId: string, version: string)
      ensures this.status == status && this.snapshotId == snapshotId && this.version == version
    {
      this.status := status;
      this.snapshotId := snapshotId;
      this.version := version;
    }
  }

  class AppUpgrade {
    const record: UpgradeRecord
    const version: string
    /** `original_app.components()` */
    const originalComponents: seq<Component>
    /** `new_app.components()`: the new components, then the updated ones. */
    const components: seq<Component>
    /** The calls made so far. */
    var log: seq<Step>

    constructor (record: UpgradeRecord, version: string, originalComponents: seq<Component>, components: seq<Component>)
      ensures this.record == record && this.version == version
      ensures this.originalComponents == originalComponents && this.components == components
      ensures log == []
    {
      this.record := record;
      this.version := version;
      this.originalComponents := originalComponents;
      this.components := components;
      log := [];
    }

    /** `_update_upgrade_record`: set the status, the snapshot id (none
        unless given) and the target version, and save. */
    method UpdateUpgradeRecord(status: UpgradeStatus, snapshotId: string)
      modifies this, record
      ensures record.status == status && record.snapshotId == snapshotId && record.version == version
      ensures log == old(log) + [SaveRecord(status, snapshotId, version)]
    {
      record.status := status;
      record.snapshotId := snapshotId;
      record.version := version;
      log := log + [SaveRecord(status, snapshotId, version)];
    }

    /** `_save_app` */
    method SaveAppPhase(o: Oracle) returns (r: Result<string, Exception>)
      modifies this, record
      ensures var s := SaveApp(o, |originalComponents| == 0, version);
              log == old(log) + s.0 && r == s.1
      ensures r.Success? ==> record.status == Upgrading && record.snapshotId == r.value && record.version == version
      ensures r.Failure? ==> unchanged(record)
    {
      var snapshot: Option<string> := None;
      if |originalComponents| != 0 {
        log := log + [CreateSnapshot];
        if o.createSnapshot.Failure? {
          return Failure(o.createSnapshot.error);
        }
        snapshot := Some(o.createSnapshot.value);
      }
      log := log + [SaveNewApp];
      if o.saveNewApp.Some? {
        return Failure(o.saveNewApp.value);
      }
      if snapshot.None? {
        return Failure(NoSnapshot);
      }
      UpdateUpgradeRecord(Upgrading, snapshot.value);
      return Success(snapshot.value);
    }

    /** `_create_component_record` */
    method CreateComponentRecord(events: seq<DeployEvent>)
      modifies this
      ensures log == old(log) + [CreateComponentRecords(ComponentRecords(components, EventIds(events)))]
    {
      var records := BuildComponentRecords(components, EventIds(events));
      log := log + [CreateComponentRecords(records)];
    }

    /** `_deploy` */
    method DeployPhase(o: Oracle) returns (err: Option<Exception>)
      modifies this, record
      ensures var t := Deploy(o, components, version, old(record.snapshotId));
              && log == old(log) + t.steps && err == t.error
              && record.status == (if t.error.Some? then t.status else old(record.status))
              && record.snapshotId == t.snapshotId
              && record.version == (if t.error.Some? then version else old(record.version))
    {
      var componentIds := ComponentIds(components);
      log := log + [BatchDeploy(componentIds)];
      match o.batchDeploy
      case Failure(e) =>
        UpdateUpgradeRecord(DeployFailed, "");
        if e.ServiceHandleException? {
          return Some(ErrAppUpgradeDeployFailed(e.msg));
        }
        return Some(e);
      case Success(events) =>
        CreateComponentRecord(events);
        return None;
    }

    /** `upgrade()`: the record's final status and snapshot id and the
        exception it ends with are those of `Run`. */
    method Upgrade(o: Oracle) returns (r: Result<UpgradeRecord, Exception>)
      modifies this, record
      ensures var t := Run(o, |originalComponents| == 0, components, version);
              && log == old(log) + t.steps
              && record.status == t.status && record.snapshotId == t.snapshotId && record.version == version
              && r == (if t.error.Some? then Failure(t.error.value) else Success(record))
    {
      log := log + [InstallPlugins];
      if o.installPlugins.Some? {
        UpdateUpgradeRecord(UpgradeFailed, "");
        return Failure(o.installPlugins.value);
      }
      log := log + [SyncNewApp];
      if o.syncNewApp.Some? {
        UpdateUpgradeRecord(UpgradeFailed, "");
        return Failure(o.syncNewApp.value);
      }
      var saved := SaveAppPhase(o);
      if saved.Failure? {
        UpdateUpgradeRecord(UpgradeFailed, "");
        log := log + [Rollback];
        if o.rollback.Some? {
          return Failure(o.rollback.value);
        }
        return Failure(UnexpectedError);
      }
      var err := DeployPhase(o);
      if err.Some? {
        return Failure(err.value);
      }
      return Success(record);
    }
  }

  // ---------------------------------------------------------------------
  // Properties of the phases
  // ---------------------------------------------------------------------

  /** Some step of `steps` is `s`. */
  predicate Has(steps: seq<Step>, s: Step) { s in steps }

  /** A failed plugin install or region sync marks the record as failed and
      lets the exception through; nothing is saved, rolled back or deployed. */
  lemma EarlyFailure(o: Oracle, originalEmpty: bool, cpts: seq<Component>, version: string)
    requires o.installPlugins.Some? || o.syncNewApp.Some?
    ensures var t := Run(o, originalEmpty, cpts, version);
            && t.status == UpgradeFailed && t.snapshotId == ""
            && t.error == (if o.installPlugins.Some? then o.installPlugins else o.syncNewApp)
            && !Has(t.steps, SaveNewApp) && !Has(t.steps, Rollback)
            && forall k :: 0 <= k < |t.steps| ==> !t.steps[k].BatchDeploy?
  {
  }

  /** A failure while saving locally marks the record as failed, invokes
      the rollback and ends with a generic error, or with the rollback's
      own exception when the rollback raises; nothing is deployed. */
  lemma SaveFailureRollsBack(o: Oracle, originalEmpty: bool, cpts: seq<Component>, version: string)
    requires o.installPlugins.None? && o.syncNewApp.None?
    requires SaveApp(o, originalEmpty, version).1.Failure?
    ensures var t := Run(o, originalEmpty, cpts, version);
            && t.status == UpgradeFailed && t.snapshotId == ""
            && t.steps[|t.steps| - 1] == Rollback
            && t.error == Some(if o.rollback.Some? then o.rollback.value else UnexpectedError)
            && forall k :: 0 <= k < |t.steps| ==> !t.steps[k].BatchDeploy?
  {
    var save := SaveApp(o, originalEmpty, version);
    var t := Run(o, originalEmpty, cpts, version);
    assert t.steps == [InstallPlugins, SyncNewApp] + save.0 + [SaveRecord(UpgradeFailed, "", version), Rollback];
  }

  /** An application without original components can never be upgraded:
      with plugins and sync succeeding, the new app is saved and then the
      missing snapshot makes the save phase fail, so the upgrade is rolled
      back and never deployed. */
  lemma EmptyOriginalNeverDeploys(o: Oracle, cpts: seq<Component>, version: string)
    requires o.installPlugins.None? && o.syncNewApp.None?
    ensures var t := Run(o, true, cpts, version);
            && Has(t.steps, SaveNewApp) && Has(t.steps, Rollback) && !Has(t.steps, CreateSnapshot)
            && t.status == UpgradeFailed && t.error.Some?
            && (o.saveNewApp.None? && o.rollback.None? ==> t.error == Some(UnexpectedError))
            && forall k :: 0 <= k < |t.steps| ==> !t.steps[k].BatchDeploy?
  {
    var t := Run(o, true, cpts, version);
    assert t.steps == [InstallPlugins, SyncNewApp, SaveNewApp, SaveRecord(UpgradeFailed, "", version), Rollback];
  }

  /** The snapshot is taken before the new app is saved, whenever the
      application has original components. */
  lemma SnapshotBeforeSave(o: Oracle, cpts: seq<Component>, version: string, k: nat)
    requires var t := Run(o, false, cpts, version); k < |t.steps| && t.steps[k] == SaveNewApp
    ensures exists j :: 0 <= j < k && Run(o, false, cpts, version).steps[j] == CreateSnapshot
  {
    var t := Run(o, false, cpts, version);
    assert t.steps[2] == CreateSnapshot;
  }

  /** The upgrade succeeds exactly when every collaborator succeeds and the
      application has original components; the record is then upgrading,
      with the snapshot's id, every new-app component was sent to the
      deploy, and a child record exists for each component that the region
      answered with an event id. */
  lemma UpgradeSucceeds(o: Oracle, originalEmpty: bool, cpts: seq<Component>, version: string)
    ensures var t := Run(o, originalEmpty, cpts, version);
            t.error.None? <==> && o.installPlugins.None? && o.syncNewApp.None? && !originalEmpty
                               && o.createSnapshot.Success? && o.saveNewApp.None? && o.batchDeploy.Success?
    ensures var t := Run(o, originalEmpty, cpts, version);
            t.error.None? ==>
              && t.status == Upgrading && t.snapshotId == o.createSnapshot.value
              && t.steps == [InstallPlugins, SyncNewApp, CreateSnapshot, SaveNewApp,
                             SaveRecord(Upgrading, o.createSnapshot.value, version),
                             BatchDeploy(ComponentIds(cpts)),
                             CreateComponentRecords(ComponentRecords(cpts, EventIds(o.batchDeploy.value)))]
  {
  }

  /** A failed deploy marks the record as deploy-failed and drops the
      snapshot id saved before it; a handled region error is reported as a
      deploy failure with the region's message, any other exception as it
      is. */
  lemma DeployFailure(o: Oracle, originalEmpty: bool, cpts: seq<Component>, version: string)
    requires o.installPlugins.None? && o.syncNewApp.None? && SaveApp(o, originalEmpty, version).1.Success?
    requires o.batchDeploy.Failure?
    ensures var t := Run(o, originalEmpty, cpts, version);
            var e := o.batchDeploy.error;
            && t.status == DeployFailed && t.snapshotId == ""
            && t.error == Some(if e.ServiceHandleException? then ErrAppUpgradeDeployFailed(e.msg) else e)
            && !Has(t.steps, Rollback)
  {
    var save := SaveApp(o, originalEmpty, version);
    var t := Run(o, originalEmpty, cpts, version);
    assert t.steps == [InstallPlugins, SyncNewApp] + save.0
                      + [BatchDeploy(ComponentIds(cpts)), SaveRecord(DeployFailed, "", version)];
  }
}
