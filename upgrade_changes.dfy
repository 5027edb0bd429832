/** The upgrade preview (`AppUpgrade.changes`): one summary per component
    to update and one per new component that has a template entry.

    The property changes are dictionaries shared with the change list the
    upgrade was built from. The preview removes the `component_id` key of
    every change it looks up, so the change list is modified in place. */
module UpgradeChanges {
  import opened Common
  import opened Entities

  /** One property-change dictionary: its `component_id` key, absent once
      removed, and its other keys. */
  datatype Change = Change(componentId: Option<string>, fields: map<string, string>)

  /** Python truthiness of a dictionary: it has at least one key. */
  predicate NonEmpty(c: Change) {
    c.componentId.Some? || c.fields != map[]
  }

  /** The change list of an upgrade (`PropertyChanges.changes`). */
  class PropertyChanges {
    var changes: seq<Change>

    constructor (changes: seq<Change>)
      ensures this.changes == changes
    {
      this.changes := changes;
    }
  }

  datatype ChangeSummary =
    | Upgrade(serviceId: string, serviceCname: string, serviceKey: string, currentVersion: string,
              canUpgrade: bool, haveChange: bool, upgradeInfo: Option<Change>)
    | Add(serviceCname: string, serviceKey: string, template: AppTmpl)

  const NoOriginal := AttributeError("'NoneType' object has no attribute 'component_source'")

  // ---------------------------------------------------------------------
  // Lookup tables
  // ---------------------------------------------------------------------

  /** `{change["component_id"]: change for change in changes}`, as the
      position of the change each id maps to: the last change with that id.
      A change without `component_id` raises `KeyError`. */
  function ChangeIndex(cs: seq<Change>): (r: Result<map<string, nat>, Exception>)
    ensures r.Failure? <==> exists i :: 0 <= i < |cs| && cs[i].componentId.None?
    ensures r.Failure? ==> r.error == KeyError("component_id")
    ensures r.Success? ==> forall k :: k in r.value ==> r.value[k] < |cs| && cs[r.value[k]].componentId == Some(k)
    decreases |cs|
  {
    if cs == [] then Success(map[])
    else
      var n := |cs| - 1;
      var prefix := ChangeIndex(cs[..n]);
      assert forall i :: 0 <= i < n ==> cs[..n][i] == cs[i];
      if prefix.Failure? then prefix
      else if cs[n].componentId.None? then Failure(KeyError("component_id"))
      else Success(prefix.value[cs[n].componentId.value := n])
  }

  /** Among the changes with a given id, the table keeps the last one. */
  lemma {:induction false} ChangeIndexLastWins(cs: seq<Change>, k: string, j: nat)
    requires ChangeIndex(cs).Success? && k in ChangeIndex(cs).value
    requires j < |cs| && cs[j].componentId == Some(k)
    ensures j <= ChangeIndex(cs).value[k]
    decreases |cs|
  {
    var n := |cs| - 1;
    var prefix := cs[..n];
    if j < n && cs[n].componentId != Some(k) {
      assert prefix[j] == cs[j];
      ChangeIndexLastWins(prefix, k, j);
    }
  }

  function ComponentsById(cpts: seq<Component>): map<string, Component>
  {
    IndexMap(cpts, ComponentIdOf, Itself)
  }

  function TemplatesByKey(apps: seq<AppTmpl>): map<string, AppTmpl>
  {
    IndexMap(apps, TmplServiceKeyOf, Itself)
  }

  // ---------------------------------------------------------------------
  // The effect on the change list
  // ---------------------------------------------------------------------

  /** The positions of the changes of the components `ids`. */
  function Touched(idx: map<string, nat>, ids: seq<string>): set<nat>
  {
    set i | 0 <= i < |ids| && ids[i] in idx :: idx[ids[i]]
  }

  /** The change list once the changes of the components `ids` have lost
      their `component_id` key; nothing else about it changes. */
  function Popped(cs: seq<Change>, idx: map<string, nat>, ids: seq<string>): (r: seq<Change>)
    ensures |r| == |cs|
    ensures forall j :: 0 <= j < |cs| ==> r[j].fields == cs[j].fields
    ensures forall j :: 0 <= j < |cs| ==> r[j].componentId == (if j in Touched(idx, ids) then None else cs[j].componentId)
  {
    seq(|cs|, j requires 0 <= j < |cs| => if j in Touched(idx, ids) then cs[j].(componentId := None) else cs[j])
  }

  /** Looking up one more component removes the `component_id` of its
      change, if it has one, and of no other change. */
  lemma PoppedStep(cs: seq<Change>, idx: map<string, nat>, ids: seq<string>, i: nat)
    requires i < |ids|
    requires forall k :: k in idx ==> idx[k] < |cs|
    ensures var p := Popped(cs, idx, ids[..i]);
            Popped(cs, idx, ids[..i + 1])
            == if ids[i] in idx then p[idx[ids[i]] := p[idx[ids[i]]].(componentId := None)] else p
  {
    var after := Touched(idx, ids[..i + 1]);
    var extra: set<nat> := if ids[i] in idx then {idx[ids[i]]} else {};
    assert after == Touched(idx, ids[..i]) + extra by {
      forall t | t in after ensures t in Touched(idx, ids[..i]) + extra {
        var m :| 0 <= m < i + 1 && ids[..i + 1][m] in idx && idx[ids[..i + 1][m]] == t;
        if m < i {
          assert ids[..i][m] == ids[..i + 1][m];
        }
      }
      forall t | t in Touched(idx, ids[..i]) ensures t in Touched(idx, ids[..i + 1]) {
        var m :| 0 <= m < i && ids[..i][m] in idx && idx[ids[..i][m]] == t;
        assert ids[..i + 1][m] == ids[..i][m];
      }
      if ids[i] in idx {
        assert ids[..i + 1][i] == ids[i];
      }
    }
  }

  // ---------------------------------------------------------------------
  // The summaries
  // ---------------------------------------------------------------------

  /** The summary of a component to update. `upgrade_info` is its change
      with `component_id` removed; the component "has a change" exactly
      when that change has some other key and its current version differs
      from the target version. */
  function UpgradeSummary(cpt: Component, original: Component, cs: seq<Change>, idx: map<string, nat>,
                          version: string): (s: ChangeSummary)
    requires forall k :: k in idx ==> idx[k] < |cs|
    ensures s.Upgrade? && s.serviceId == cpt.component.componentId && s.canUpgrade
    ensures s.serviceCname == cpt.component.serviceCname && s.serviceKey == cpt.component.serviceKey
    ensures s.currentVersion == original.componentSource.version
    ensures s.upgradeInfo.Some? <==> cpt.component.componentId in idx
    ensures s.upgradeInfo.Some? ==> s.upgradeInfo.value == cs[idx[cpt.component.componentId]].(componentId := None)
    ensures s.haveChange <==> && cpt.component.componentId in idx
                              && cs[idx[cpt.component.componentId]].fields != map[]
                              && original.componentSource.version != version
  {
    var id := cpt.component.componentId;
    var upgradeInfo := if id in idx then Some(cs[idx[id]].(componentId := None)) else None;
    var currentVersion := original.componentSource.version;
    Upgrade(id, cpt.component.serviceCname, cpt.component.serviceKey, currentVersion, true,
            upgradeInfo.Some? && NonEmpty(upgradeInfo.value) && currentVersion != version, upgradeInfo)
  }

  /** The summaries of the new components that have a template entry, in
      order; a new component without one is left out. */
  function AddSummaries(cpts: seq<Component>, templates: map<string, AppTmpl>): (r: seq<ChangeSummary>)
    ensures |r| <= |cpts|
    ensures forall k :: 0 <= k < |r| ==>
              r[k].Add? && r[k].serviceKey in templates && r[k].template == templates[r[k].serviceKey]
    decreases |cpts|
  {
    if cpts == [] then []
    else
      var cpt := cpts[|cpts| - 1];
      AddSummaries(cpts[..|cpts| - 1], templates)
      + (if cpt.component.serviceKey in templates
         then [Add(cpt.component.serviceCname, cpt.component.serviceKey, templates[cpt.component.serviceKey])]
         else [])
  }

  lemma {:induction false} AddSummariesComplete(cpts: seq<Component>, templates: map<string, AppTmpl>, i: nat)
    requires i < |cpts| && cpts[i].component.serviceKey in templates
    ensures Add(cpts[i].component.serviceCname, cpts[i].component.serviceKey, templates[cpts[i].component.serviceKey])
            in AddSummaries(cpts, templates)
    decreases |cpts|
  {
    var n := |cpts| - 1;
    if i < n {
      var prefix := cpts[..n];
      assert prefix[i] == cpts[i];
      AddSummariesComplete(prefix, templates, i);
    }
  }

  /** The number of leading update components that have an original
      component; the next one, if any, has none. */
  function FirstMissing(ids: seq<string>, originals: map<string, Component>): (k: nat)
    ensures k <= |ids|
    ensures forall i :: 0 <= i < k ==> ids[i] in originals
    ensures k < |ids| ==> ids[k] !in originals
    decreases |ids|
  {
    if ids == [] || ids[0] !in originals then 0 else 1 + FirstMissing(ids[1..], originals)
  }

  /** The first id without an original component is the one after the
      leading ids that have one. */
  lemma FirstMissingIs(ids: seq<string>, originals: map<string, Component>, k: nat)
    requires k <= |ids| && forall j :: 0 <= j < k ==> ids[j] in originals
    requires k < |ids| ==> ids[k] !in originals
    ensures FirstMissing(ids, originals) == k
  {
  }

  /** The upgrade summaries of `updates[..n]`. */
  function UpgradeSummaries(updates: seq<Component>, originals: map<string, Component>, cs: seq<Change>,
                            idx: map<string, nat>, version: string, n: nat): (r: seq<ChangeSummary>)
    requires n <= |updates|
    requires forall i :: 0 <= i < n ==> updates[i].component.componentId in originals
    requires forall k :: k in idx ==> idx[k] < |cs|
    ensures |r| == n
    decreases n
  {
    if n == 0 then []
    else
      UpgradeSummaries(updates, originals, cs, idx, version, n - 1)
      + [UpgradeSummary(updates[n - 1], originals[updates[n - 1].component.componentId], cs, idx, version)]
  }

  lemma {:induction false} UpgradeSummariesAt(updates: seq<Component>, originals: map<string, Component>, cs: seq<Change>,
                                              idx: map<string, nat>, version: string, n: nat, i: nat)
    requires i < n <= |updates|
    requires forall j :: 0 <= j < n ==> updates[j].component.componentId in originals
    requires forall k :: k in idx ==> idx[k] < |cs|
    ensures UpgradeSummaries(updates, originals, cs, idx, version, n)[i]
            == UpgradeSummary(updates[i], originals[updates[i].component.componentId], cs, idx, version)
    decreases n
  {
    if i < n - 1 {
      UpgradeSummariesAt(updates, originals, cs, idx, version, n - 1, i);
    }
  }

  /** What the loop over the components to update leaves in the change
      list and what it produces: it stops at the first component without
      an original component. */
  function UpdatesOutcome(cs: seq<Change>, updates: seq<Component>, originals: map<string, Component>,
                          idx: map<string, nat>, version: string): (r: (seq<Change>, Result<seq<ChangeSummary>, Exception>))
    requires forall k :: k in idx ==> idx[k] < |cs|
  {
    var ids := ComponentIds(updates);
    var k := FirstMissing(ids, originals);
    if k < |ids| then (Popped(cs, idx, ids[..k + 1]), Failure(NoOriginal))
    else (Popped(cs, idx, ids), Success(UpgradeSummaries(updates, originals, cs, idx, version, |updates|)))
  }

  /** What `changes()` leaves in the change list and what it returns. */
  function ChangesOutcome(cs: seq<Change>, updates: seq<Component>, originals: map<string, Component>,
                          news: seq<Component>, templates: map<string, AppTmpl>, version: string)
    : (r: (seq<Change>, Result<seq<ChangeSummary>, Exception>))
  {
    match ChangeIndex(cs)
    case Failure(e) => (cs, Failure(e))
    case Success(idx) =>
      var u := UpdatesOutcome(cs, updates, originals, idx, version);
      match u.1
      case Failure(e) => (u.0, Failure(e))
      case Success(ups) => (u.0, Success(ups + AddSummaries(news, templates)))
  }

  // ---------------------------------------------------------------------
  // changes()
  // ---------------------------------------------------------------------

  /** `changes()`: summaries of the components to update, then of the new
      components that have a template entry. */
  method Changes(propertyChanges: PropertyChanges, updateComponents: seq<Component>, newComponents: seq<Component>,
                 originalComponents: seq<Component>, template: AppTemplate, version: string)
    returns (r: Result<seq<ChangeSummary>, Exception>)
    modifies propertyChanges
    ensures (propertyChanges.changes, r)
         == ChangesOutcome(old(propertyChanges.changes), updateComponents, ComponentsById(originalComponents),
                           newComponents, TemplatesByKey(template.apps), version)
  {
    var templates := TemplatesByKey(template.apps);
    var originals := ComponentsById(originalComponents);
    var index := ChangeIndex(propertyChanges.changes);
    if index.Failure? {
      return Failure(index.error);
    }
    var updates := UpdateSummaries(propertyChanges, updateComponents, originals, index.value, version);
    if updates.Failure? {
      return Failure(updates.error);
    }
    var adds := AddNewSummaries(newComponents, templates);
    return Success(updates.value + adds);
  }

  /** One more component with an original component appends its summary. */
  lemma UpgradeSummariesStep(updates: seq<Component>, originals: map<string, Component>, cs: seq<Change>,
                             idx: map<string, nat>, version: string, i: nat, result: seq<ChangeSummary>)
    requires i < |updates|
    requires forall j :: 0 <= j <= i ==> updates[j].component.componentId in originals
    requires forall k :: k in idx ==> idx[k] < |cs|
    requires result == UpgradeSummaries(updates, originals, cs, idx, version, i)
    ensures result + [UpgradeSummary(updates[i], originals[updates[i].component.componentId], cs, idx, version)]
            == UpgradeSummaries(updates, originals, cs, idx, version, i + 1)
  {
  }

  /** The change of the component just looked up has lost its
      `component_id` and kept its other keys. */
  lemma PoppedHit(cs: seq<Change>, idx: map<string, nat>, ids: seq<string>, i: nat)
    requires i < |ids| && ids[i] in idx
    requires forall k :: k in idx ==> idx[k] < |cs|
    ensures Popped(cs, idx, ids[..i + 1])[idx[ids[i]]] == cs[idx[ids[i]]].(componentId := None)
  {
    assert ids[..i + 1][i] == ids[i];
    assert idx[ids[i]] in Touched(idx, ids[..i + 1]);
  }

  /** `change.pop("component_id")` on the change of one component, if it
      has one and it still holds the key. */
  method PopComponentId(propertyChanges: PropertyChanges, cptChanges: map<string, nat>, componentId: string)
    requires forall k :: k in cptChanges ==> cptChanges[k] < |propertyChanges.changes|
    modifies propertyChanges
    ensures var p := old(propertyChanges.changes);
            propertyChanges.changes
            == if componentId in cptChanges
               then p[cptChanges[componentId] := p[cptChanges[componentId]].(componentId := None)]
               else p
  {
    if componentId in cptChanges {
      var at := cptChanges[componentId];
      if propertyChanges.changes[at].componentId.Some? {
        propertyChanges.changes := propertyChanges.changes[at := propertyChanges.changes[at].(componentId := None)];
      } else {
        assert propertyChanges.changes[at] == propertyChanges.changes[at].(componentId := None);
      }
    }
  }

  /** One component of the loop of `changes()`: its change loses
      `component_id`, and its summary is built when it has an original
      component. */
  method SummarizeUpdate(propertyChanges: PropertyChanges, cpt: Component, originals: map<string, Component>,
                         cptChanges: map<string, nat>, version: string,
                         ghost cs: seq<Change>, ghost ids: seq<string>, ghost i: nat)
    returns (s: Option<ChangeSummary>)
    requires i < |ids| && ids[i] == cpt.component.componentId
    requires forall k :: k in cptChanges ==> cptChanges[k] < |cs|
    requires propertyChanges.changes == Popped(cs, cptChanges, ids[..i])
    modifies propertyChanges
    ensures propertyChanges.changes == Popped(cs, cptChanges, ids[..i + 1])
    ensures s.None? <==> ids[i] !in originals
    ensures s.Some? ==> ids[i] in originals && s.value == UpgradeSummary(cpt, originals[ids[i]], cs, cptChanges, version)
  {
    var componentId := cpt.component.componentId;
    PoppedStep(cs, cptChanges, ids, i);
    PopComponentId(propertyChanges, cptChanges, componentId);
    if componentId !in originals {
      return None;
    }
    var originalCpt := originals[componentId];
    var upgradeInfo := if componentId in cptChanges then Some(propertyChanges.changes[cptChanges[componentId]]) else None;
    if componentId in cptChanges {
      PoppedHit(cs, cptChanges, ids, i);
    }
    var currentVersion := originalCpt.componentSource.version;
    s := Some(Upgrade(componentId, cpt.component.serviceCname, cpt.component.serviceKey, currentVersion,
                      true, upgradeInfo.Some? && NonEmpty(upgradeInfo.value) && currentVersion != version,
                      upgradeInfo));
  }

  /** The loop of `changes()` over the components to update. */
  method UpdateSummaries(propertyChanges: PropertyChanges, updateComponents: seq<Component>,
                         originals: map<string, Component>, cptChanges: map<string, nat>, version: string)
    returns (r: Result<seq<ChangeSummary>, Exception>)
    requires forall k :: k in cptChanges ==> cptChanges[k] < |propertyChanges.changes|
    modifies propertyChanges
    ensures (propertyChanges.changes, r)
         == UpdatesOutcome(old(propertyChanges.changes), updateComponents, originals, cptChanges, version)
  {
    ghost var cs := propertyChanges.changes;
    ghost var ids := ComponentIds(updateComponents);
    var result := [];
    var i := 0;
    while i < |updateComponents|
      invariant 0 <= i <= |updateComponents|
      invariant forall j :: 0 <= j < i ==> ids[j] in originals
      invariant propertyChanges.changes == Popped(cs, cptChanges, ids[..i])
      invariant result == UpgradeSummaries(updateComponents, originals, cs, cptChanges, version, i)
    {
      var summary := SummarizeUpdate(propertyChanges, updateComponents[i], originals, cptChanges, version, cs, ids, i);
      if summary.None? {
        FirstMissingIs(ids, originals, i);
        return Failure(NoOriginal);
      }
      UpgradeSummariesStep(updateComponents, originals, cs, cptChanges, version, i, result);
      result := result + [summary.value];
      i := i + 1;
    }
    assert ids[..i] == ids;
    FirstMissingIs(ids, originals, i);
    return Success(result);
  }

  /** The loop of `changes()` over the new components. */
  method AddNewSummaries(newComponents: seq<Component>, templates: map<string, AppTmpl>) returns (result: seq<ChangeSummary>)
    ensures result == AddSummaries(newComponents, templates)
  {
    result := [];
    var i := 0;
    while i < |newComponents|
      invariant 0 <= i <= |newComponents|
      invariant result == AddSummaries(newComponents[..i], templates)
    {
      var cpt := newComponents[i];
      assert newComponents[..i + 1][..i] == newComponents[..i];
      if cpt.component.serviceKey !in templates {
        i := i + 1;
        continue;
      }
      var tmpl := templates[cpt.component.serviceKey];
      result := result + [Add(cpt.component.serviceCname, cpt.component.serviceKey, tmpl)];
      i := i + 1;
    }
    assert newComponents[..i] == newComponents;
  }

  // ---------------------------------------------------------------------
  // Properties
  // ---------------------------------------------------------------------

  /** A preview that finds the change of at least one component to update
      leaves a change without `component_id` behind, so a second preview
      on the same change list raises `KeyError` and changes nothing more. */
  lemma ChangesTwiceRaises(cs: seq<Change>, updates: seq<Component>, originals: map<string, Component>,
                           news: seq<Component>, templates: map<string, AppTmpl>, version: string, i: nat)
    requires ChangeIndex(cs).Success?
    requires i < |updates| && updates[i].component.componentId in ChangeIndex(cs).value
    requires ChangesOutcome(cs, updates, originals, news, templates, version).1.Success?
    ensures var after := ChangesOutcome(cs, updates, originals, news, templates, version).0;
            ChangesOutcome(after, updates, originals, news, templates, version) == (after, Failure(KeyError("component_id")))
  {
    var idx := ChangeIndex(cs).value;
    var ids := ComponentIds(updates);
    var after := Popped(cs, idx, ids);
    var j := idx[ids[i]];
    assert after[j].componentId.None?;
  }

  /** The summaries of a successful preview: the components to update,
      then the new components. */
  lemma ChangesSplit(cs: seq<Change>, updates: seq<Component>, originals: map<string, Component>,
                     news: seq<Component>, templates: map<string, AppTmpl>, version: string)
    requires ChangesOutcome(cs, updates, originals, news, templates, version).1.Success?
    ensures ChangeIndex(cs).Success?
    ensures forall j :: 0 <= j < |updates| ==> updates[j].component.componentId in originals
    ensures ChangesOutcome(cs, updates, originals, news, templates, version).1.value
            == UpgradeSummaries(updates, originals, cs, ChangeIndex(cs).value, version, |updates|)
               + AddSummaries(news, templates)
  {
    var ids := ComponentIds(updates);
    assert FirstMissing(ids, originals) == |ids|;
    forall j | 0 <= j < |updates| ensures updates[j].component.componentId in originals {
      assert ids[j] == updates[j].component.componentId;
    }
  }

  /** A successful preview lists every component to update, in order, as
      an upgrade that can be applied. It reports a change exactly when the
      component has a property change with some key besides
      `component_id` and its current version is not the target version. */
  lemma ChangesUpgradeAt(cs: seq<Change>, updates: seq<Component>, originals: map<string, Component>,
                         news: seq<Component>, templates: map<string, AppTmpl>, version: string, i: nat)
    requires ChangesOutcome(cs, updates, originals, news, templates, version).1.Success?
    requires i < |updates|
    ensures ChangeIndex(cs).Success?
    ensures var s := ChangesOutcome(cs, updates, originals, news, templates, version).1.value;
            var idx := ChangeIndex(cs).value;
            var id := updates[i].component.componentId;
            && i < |s| && id in originals
            && s[i].Upgrade? && s[i].serviceId == id && s[i].canUpgrade
            && s[i].serviceCname == updates[i].component.serviceCname
            && s[i].serviceKey == updates[i].component.serviceKey
            && s[i].currentVersion == originals[id].componentSource.version
            && (s[i].upgradeInfo.Some? <==> id in idx)
            && (s[i].upgradeInfo.Some? ==> s[i].upgradeInfo.value == cs[idx[id]].(componentId := None))
            && (s[i].haveChange <==> id in idx && cs[idx[id]].fields != map[]
                                     && originals[id].componentSource.version != version)
  {
    ChangesSplit(cs, updates, originals, news, templates, version);
    var idx := ChangeIndex(cs).value;
    var ups := UpgradeSummaries(updates, originals, cs, idx, version, |updates|);
    UpgradeSummariesAt(updates, originals, cs, idx, version, |updates|, i);
    assert (ups + AddSummaries(news, templates))[i] == ups[i];
  }

  /** After the components to update, a successful preview lists only new
      components that have a template entry, with that entry. */
  lemma ChangesAddAt(cs: seq<Change>, updates: seq<Component>, originals: map<string, Component>,
                     news: seq<Component>, templates: map<string, AppTmpl>, version: string, k: nat)
    requires ChangesOutcome(cs, updates, originals, news, templates, version).1.Success?
    requires |updates| <= k < |ChangesOutcome(cs, updates, originals, news, templates, version).1.value|
    ensures var s := ChangesOutcome(cs, updates, originals, news, templates, version).1.value;
            s[k].Add? && s[k].serviceKey in templates && s[k].template == templates[s[k].serviceKey]
  {
    ChangesSplit(cs, updates, originals, news, templates, version);
    var ups := UpgradeSummaries(updates, originals, cs, ChangeIndex(cs).value, version, |updates|);
    var adds := AddSummaries(news, templates);
    assert (ups + adds)[k] == adds[k - |updates|];
  }

  /** A component to update without an original component makes the
      preview raise, after the changes of that component and of the ones
      before it have already lost their `component_id`. */
  lemma ChangesMissingOriginal(cs: seq<Change>, updates: seq<Component>, originals: map<string, Component>,
                               news: seq<Component>, templates: map<string, AppTmpl>, version: string, i: nat)
    requires ChangeIndex(cs).Success?
    requires i < |updates| && updates[i].component.componentId !in originals
    ensures ChangesOutcome(cs, updates, originals, news, templates, version).1 == Failure(NoOriginal)
  {
    var ids := ComponentIds(updates);
    assert ids[i] !in originals;
    assert FirstMissing(ids, originals) <= i;
  }
}
