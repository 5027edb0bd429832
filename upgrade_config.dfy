/** "Only add" reconciliation of application config groups, their items
    and their component bindings (`_config_groups`, `_config_group_items`,
    `_config_group_components`).

    All three have one shape: the existing rows, untouched, followed by
    those template-derived candidates whose key is not the key of an
    existing row. Keys are plain string concatenations; the list of
    existing keys is computed once, before any candidate is added, so two
    candidates with the same new key are both added. */
module UpgradeConfig {
  import opened Common
  import opened Entities

  datatype ConfigGroup = ConfigGroup(
    appId: string,
    configGroupName: string,
    deployType: string,
    enable: bool,
    regionName: string,
    configGroupId: string)

  datatype ConfigGroupItem = ConfigGroupItem(
    appId: string,
    configGroupName: string,
    itemKey: string,
    itemValue: string,
    configGroupId: string)

  datatype ConfigGroupService = ConfigGroupService(
    appId: string,
    configGroupName: string,
    serviceId: string,
    configGroupId: string)

  function GroupKeyOf(g: ConfigGroup): string { g.configGroupName }
  function ItemKeyOf(it: ConfigGroupItem): string { it.configGroupName + it.itemKey }
  function BindingKeyOf(b: ConfigGroupService): string { b.configGroupName + b.serviceId }

  // ---------------------------------------------------------------------
  // The shared "only add" shape
  // ---------------------------------------------------------------------

  /** `[key(x) for x in xs]` */
  function KeysOf<T>(xs: seq<T>, key: T -> string): seq<string>
  {
    seq(|xs|, i requires 0 <= i < |xs| => key(xs[i]))
  }

  /** The candidates whose key is not in `present`, in candidate order. */
  function Unseen<T>(cands: seq<T>, present: seq<string>, key: T -> string): seq<T>
    decreases |cands|
  {
    if cands == [] then []
    else
      var c := cands[|cands| - 1];
      Unseen(cands[..|cands| - 1], present, key) + (if key(c) in present then [] else [c])
  }

  lemma {:induction false} UnseenMembers<T>(cands: seq<T>, present: seq<string>, key: T -> string, x: T)
    ensures x in Unseen(cands, present, key) <==> x in cands && key(x) !in present
    decreases |cands|
  {
    if cands != [] {
      var prefix := cands[..|cands| - 1];
      UnseenMembers(prefix, present, key, x);
      assert cands == prefix + [cands[|cands| - 1]];
    }
  }

  lemma {:induction false} UnseenAppend<T>(xs: seq<T>, ys: seq<T>, present: seq<string>, key: T -> string)
    ensures Unseen(xs + ys, present, key) == Unseen(xs, present, key) + Unseen(ys, present, key)
    decreases |ys|
  {
    if ys == [] {
      assert xs + ys == xs;
    } else {
      var n := |ys| - 1;
      UnseenAppend(xs, ys[..n], present, key);
      assert (xs + ys)[..|xs + ys| - 1] == xs + ys[..n];
      assert (xs + ys)[|xs + ys| - 1] == ys[n];
    }
  }

  /** One more candidate is appended exactly when its key is not present. */
  lemma UnseenSnoc<T>(base: seq<T>, done: seq<T>, x: T, present: seq<string>, key: T -> string, r: seq<T>)
    requires r == base + Unseen(done, present, key)
    ensures (if key(x) in present then r else r + [x]) == base + Unseen(done + [x], present, key)
  {
    assert (done + [x])[..|done|] == done;
    assert (done + [x])[|done|] == x;
    var a := Unseen(done, present, key);
    if key(x) in present {
      assert a + [] == a;
    } else {
      assert base + (a + [x]) == base + a + [x];
    }
  }

  /** Appending the unseen part of the next candidates to an accumulator
      that holds the unseen part of the earlier ones. */
  lemma UnseenConcat<T>(base: seq<T>, done: seq<T>, next: seq<T>, present: seq<string>, key: T -> string)
    ensures base + Unseen(done, present, key) + Unseen(next, present, key)
         == base + Unseen(done + next, present, key)
  {
    UnseenAppend(done, next, present, key);
    var a, b := Unseen(done, present, key), Unseen(next, present, key);
    assert base + a + b == base + (a + b);
  }

  /** The existing rows, unchanged and in order, followed by every
      candidate whose key is not an existing row's key, in candidate order. */
  function OnlyAdd<T(!new)>(existing: seq<T>, cands: seq<T>, key: T -> string): (r: seq<T>)
    ensures |existing| <= |r| && r[..|existing|] == existing
    ensures forall x :: x in r[|existing|..] <==> x in cands && key(x) !in KeysOf(existing, key)
  {
    var added := Unseen(cands, KeysOf(existing, key), key);
    forall x ensures x in added <==> x in cands && key(x) !in KeysOf(existing, key) {
      UnseenMembers(cands, KeysOf(existing, key), key, x);
    }
    assert (existing + added)[|existing|..] == added;
    existing + added
  }

  /** No row that the reconciliation adds has the key of an existing row:
      existing entries are never shadowed or overwritten. */
  lemma OnlyAddKeepsExistingKeys<T(!new)>(existing: seq<T>, cands: seq<T>, key: T -> string)
    ensures var r := OnlyAdd(existing, cands, key);
            forall k :: |existing| <= k < |r| ==> forall x :: x in existing ==> key(r[k]) != key(x)
  {
    var r := OnlyAdd(existing, cands, key);
    forall k, x | |existing| <= k < |r| && x in existing ensures key(r[k]) != key(x) {
      assert r[k] in r[|existing|..];
      var i :| 0 <= i < |existing| && existing[i] == x;
      assert KeysOf(existing, key)[i] == key(x);
    }
  }

  // ---------------------------------------------------------------------
  // Config groups
  // ---------------------------------------------------------------------

  /** The group a template entry would create; `uuid` stands for the
      identifier generator and is indexed by the entry's position. */
  function NewGroup(cg: ConfigGroupTmpl, appId: string, regionName: string, id: string): ConfigGroup
  {
    ConfigGroup(appId, cg.name, cg.injectionType, true, regionName, id)
  }

  function GroupCandidates(tmpl: seq<ConfigGroupTmpl>, appId: string, regionName: string,
                           uuid: nat -> string): (cands: seq<ConfigGroup>)
    ensures |cands| == |tmpl|
    ensures forall i :: 0 <= i < |tmpl| ==> cands[i] == NewGroup(tmpl[i], appId, regionName, uuid(i))
    decreases |tmpl|
  {
    if tmpl == [] then []
    else
      var n := |tmpl| - 1;
      GroupCandidates(tmpl[..n], appId, regionName, uuid) + [NewGroup(tmpl[n], appId, regionName, uuid(n))]
  }

  /** One more template group adds its group exactly when its name is new. */
  lemma AddGroupsStep(existing: seq<ConfigGroup>, names: seq<string>, tmpl: seq<ConfigGroupTmpl>, appId: string,
                      regionName: string, uuid: nat -> string, i: nat, groups: seq<ConfigGroup>)
    requires i < |tmpl|
    requires groups == existing + Unseen(GroupCandidates(tmpl[..i], appId, regionName, uuid), names, GroupKeyOf)
    ensures (if tmpl[i].name in names then groups else groups + [NewGroup(tmpl[i], appId, regionName, uuid(i))])
            == existing + Unseen(GroupCandidates(tmpl[..i + 1], appId, regionName, uuid), names, GroupKeyOf)
  {
    var cands := GroupCandidates(tmpl[..i], appId, regionName, uuid);
    var g := NewGroup(tmpl[i], appId, regionName, uuid(i));
    assert tmpl[..i + 1][..i] == tmpl[..i];
    assert GroupCandidates(tmpl[..i + 1], appId, regionName, uuid) == cands + [g];
    UnseenAppend(cands, [g], names, GroupKeyOf);
    assert [g][..0] == [];
    var added := Unseen(cands, names, GroupKeyOf);
    if tmpl[i].name in names {
      assert added + [] == added;
    } else {
      assert existing + (added + [g]) == existing + added + [g];
    }
  }

  /** `_config_groups`: the existing groups followed by a new, enabled group
      for each template group whose name no existing group has. */
  method ConfigGroups(existing: seq<ConfigGroup>, template: AppTemplate, appId: string, regionName: string,
                      uuid: nat -> string) returns (groups: seq<ConfigGroup>)
    ensures groups == OnlyAdd(existing, GroupCandidates(template.configGroups, appId, regionName, uuid), GroupKeyOf)
  {
    var names := KeysOf(existing, GroupKeyOf);
    groups := AddGroups(existing, names, template.configGroups, appId, regionName, uuid);
  }

  /** The loop of `_config_groups` over the template groups. */
  method AddGroups(existing: seq<ConfigGroup>, names: seq<string>, tmpl: seq<ConfigGroupTmpl>, appId: string,
                   regionName: string, uuid: nat -> string) returns (groups: seq<ConfigGroup>)
    ensures groups == existing + Unseen(GroupCandidates(tmpl, appId, regionName, uuid), names, GroupKeyOf)
  {
    groups := existing;
    var i := 0;
    while i < |tmpl|
      invariant 0 <= i <= |tmpl|
      invariant groups == existing + Unseen(GroupCandidates(tmpl[..i], appId, regionName, uuid), names, GroupKeyOf)
    {
      var cg := tmpl[i];
      AddGroupsStep(existing, names, tmpl, appId, regionName, uuid, i, groups);
      if cg.name in names {
        i := i + 1;
        continue;
      }
      var configGroup := ConfigGroup(appId, cg.name, cg.injectionType, true, regionName, uuid(i));
      groups := groups + [configGroup];
      i := i + 1;
    }
    assert tmpl[..i] == tmpl;
  }



  /** After `_config_groups` every config group the template names exists:
      either an existing group already had the name, or one was added. */
  lemma ConfigGroupsCoverTemplate(existing: seq<ConfigGroup>, tmpl: seq<ConfigGroupTmpl>, appId: string,
                                  regionName: string, uuid: nat -> string, i: nat)
    requires i < |tmpl|
    ensures exists g :: g in OnlyAdd(existing, GroupCandidates(tmpl, appId, regionName, uuid), GroupKeyOf)
                        && g.configGroupName == tmpl[i].name
  {
    var cands := GroupCandidates(tmpl, appId, regionName, uuid);
    var r := OnlyAdd(existing, cands, GroupKeyOf);
    var c := cands[i];
    if GroupKeyOf(c) in KeysOf(existing, GroupKeyOf) {
      var j :| 0 <= j < |existing| && KeysOf(existing, GroupKeyOf)[j] == GroupKeyOf(c);
      assert r[..|existing|][j] == existing[j];
      assert r[j] in r;
    } else {
      assert c in r[|existing|..];
    }
  }

  // ---------------------------------------------------------------------
  // Config items
  // ---------------------------------------------------------------------

  /** The items of one template group, all attached to the group `g`. */
  function GroupItems(g: ConfigGroup, name: string, pairs: seq<(string, string)>, appId: string): (items: seq<ConfigGroupItem>)
    ensures |items| == |pairs|
    ensures forall j :: 0 <= j < |pairs| ==> items[j] == ConfigGroupItem(appId, name, pairs[j].0, pairs[j].1, g.configGroupId)
    decreases |pairs|
  {
    if pairs == [] then []
    else
      var n := |pairs| - 1;
      GroupItems(g, name, pairs[..n], appId) + [ConfigGroupItem(appId, name, pairs[n].0, pairs[n].1, g.configGroupId)]
  }

  /** The item candidates of one template group: none when no group of
      that name exists. */
  function EntryItems(groups: map<string, ConfigGroup>, cg: ConfigGroupTmpl, appId: string): seq<ConfigGroupItem>
  {
    if cg.name !in groups then [] else GroupItems(groups[cg.name], cg.name, cg.configItems, appId)
  }

  function ItemCandidates(groups: map<string, ConfigGroup>, tmpl: seq<ConfigGroupTmpl>, appId: string): seq<ConfigGroupItem>
    decreases |tmpl|
  {
    if tmpl == [] then []
    else ItemCandidates(groups, tmpl[..|tmpl| - 1], appId) + EntryItems(groups, tmpl[|tmpl| - 1], appId)
  }

  /** `{cg.config_group_name: cg for cg in config_groups}` */
  function GroupsByName(groups: seq<ConfigGroup>): map<string, ConfigGroup>
  {
    IndexMap(groups, GroupKeyOf, Itself)
  }

  /** The inner loop of `_config_group_items`: the items of one template
      group whose `name + item_key` is not among `itemKeys`, appended. */
  method AddGroupItems(items: seq<ConfigGroupItem>, itemKeys: seq<string>, configGroup: ConfigGroup, name: string,
                       pairs: seq<(string, string)>, appId: string) returns (r: seq<ConfigGroupItem>)
    ensures r == items + Unseen(GroupItems(configGroup, name, pairs, appId), itemKeys, ItemKeyOf)
  {
    r := items;
    var j := 0;
    while j < |pairs|
      invariant 0 <= j <= |pairs|
      invariant r == items + Unseen(GroupItems(configGroup, name, pairs[..j], appId), itemKeys, ItemKeyOf)
    {
      var itemKey := pairs[j].0;
      var key := name + itemKey;
      var item := ConfigGroupItem(appId, name, itemKey, pairs[j].1, configGroup.configGroupId);
      assert pairs[..j + 1][..j] == pairs[..j];
      UnseenSnoc(items, GroupItems(configGroup, name, pairs[..j], appId), item, itemKeys, ItemKeyOf, r);
      if key !in itemKeys {
        r := r + [item];
      }
      j := j + 1;
    }
    assert pairs[..j] == pairs;
  }

  /** One template group of `_config_group_items`: skipped when no group
      of its name exists. */
  method AddEntryItems(items: seq<ConfigGroupItem>, itemKeys: seq<string>, groups: map<string, ConfigGroup>,
                       cg: ConfigGroupTmpl, appId: string) returns (r: seq<ConfigGroupItem>)
    ensures r == items + Unseen(EntryItems(groups, cg, appId), itemKeys, ItemKeyOf)
  {
    if cg.name !in groups {
      assert items + [] == items;
      return items;
    }
    var configGroup := groups[cg.name];
    r := AddGroupItems(items, itemKeys, configGroup, cg.name, cg.configItems, appId);
  }

  /** `_config_group_items`: the existing items followed by one item per
      template (group, item key) pair whose group exists and whose
      `name + item_key` is not an existing item's key. */
  method ConfigGroupItems(configGroups: seq<ConfigGroup>, existing: seq<ConfigGroupItem>, template: AppTemplate,
                          appId: string) returns (items: seq<ConfigGroupItem>)
    ensures items == OnlyAdd(existing, ItemCandidates(GroupsByName(configGroups), template.configGroups, appId), ItemKeyOf)
  {
    var groups := GroupsByName(configGroups);
    var itemKeys := KeysOf(existing, ItemKeyOf);
    items := AddItems(existing, itemKeys, groups, template.configGroups, appId);
  }

  lemma ItemCandidatesSnoc(groups: map<string, ConfigGroup>, tmpl: seq<ConfigGroupTmpl>, appId: string, i: nat)
    requires i < |tmpl|
    ensures ItemCandidates(groups, tmpl[..i + 1], appId)
         == ItemCandidates(groups, tmpl[..i], appId) + EntryItems(groups, tmpl[i], appId)
  {
    assert tmpl[..i + 1][..i] == tmpl[..i];
    assert tmpl[..i + 1][i] == tmpl[i];
  }

  /** One more template group appends the unseen items of that group. */
  lemma AddItemsStep(existing: seq<ConfigGroupItem>, itemKeys: seq<string>, groups: map<string, ConfigGroup>,
                     tmpl: seq<ConfigGroupTmpl>, appId: string, i: nat, items: seq<ConfigGroupItem>)
    requires i < |tmpl|
    requires items == existing + Unseen(ItemCandidates(groups, tmpl[..i], appId), itemKeys, ItemKeyOf)
    ensures items + Unseen(EntryItems(groups, tmpl[i], appId), itemKeys, ItemKeyOf)
         == existing + Unseen(ItemCandidates(groups, tmpl[..i + 1], appId), itemKeys, ItemKeyOf)
  {
    ItemCandidatesSnoc(groups, tmpl, appId, i);
    UnseenConcat(existing, ItemCandidates(groups, tmpl[..i], appId), EntryItems(groups, tmpl[i], appId),
                 itemKeys, ItemKeyOf);
  }

  /** The loop of `_config_group_items` over the template groups. */
  method AddItems(existing: seq<ConfigGroupItem>, itemKeys: seq<string>, groups: map<string, ConfigGroup>,
                  tmpl: seq<ConfigGroupTmpl>, appId: string) returns (items: seq<ConfigGroupItem>)
    ensures items == existing + Unseen(ItemCandidates(groups, tmpl, appId), itemKeys, ItemKeyOf)
  {
    items := existing;
    var i := 0;
    while i < |tmpl|
      invariant 0 <= i <= |tmpl|
      invariant items == existing + Unseen(ItemCandidates(groups, tmpl[..i], appId), itemKeys, ItemKeyOf)
    {
      AddItemsStep(existing, itemKeys, groups, tmpl, appId, i, items);
      items := AddEntryItems(items, itemKeys, groups, tmpl[i], appId);
      i := i + 1;
    }
    assert tmpl[..i] == tmpl;
  }

  /** Every item candidate belongs to an existing group, carries that
      group's id, and comes from a key/value pair of a template group of
      that name; conversely every such pair of a group that exists is a
      candidate. Items of missing groups are skipped. */
  lemma {:induction false} ItemCandidatesSound(groups: map<string, ConfigGroup>, tmpl: seq<ConfigGroupTmpl>,
                                               appId: string, it: ConfigGroupItem)
    requires it in ItemCandidates(groups, tmpl, appId)
    ensures it.configGroupName in groups && it.configGroupId == groups[it.configGroupName].configGroupId
    ensures exists i, j :: 0 <= i < |tmpl| && 0 <= j < |tmpl[i].configItems|
              && tmpl[i].name == it.configGroupName && tmpl[i].configItems[j] == (it.itemKey, it.itemValue)
    decreases |tmpl|
  {
    var n := |tmpl| - 1;
    var prefix := tmpl[..n];
    if it in ItemCandidates(groups, prefix, appId) {
      ItemCandidatesSound(groups, prefix, appId, it);
      var i, j :| 0 <= i < |prefix| && 0 <= j < |prefix[i].configItems|
                  && prefix[i].name == it.configGroupName && prefix[i].configItems[j] == (it.itemKey, it.itemValue);
      assert tmpl[i] == prefix[i];
    } else {
      var cg := tmpl[n];
      var items := GroupItems(groups[cg.name], cg.name, cg.configItems, appId);
      var j :| 0 <= j < |items| && items[j] == it;
      assert cg.configItems[j] == (it.itemKey, it.itemValue);
    }
  }

  lemma {:induction false} ItemCandidatesComplete(groups: map<string, ConfigGroup>, tmpl: seq<ConfigGroupTmpl>,
                                                  appId: string, i: nat, j: nat)
    requires i < |tmpl| && j < |tmpl[i].configItems| && tmpl[i].name in groups
    ensures ConfigGroupItem(appId, tmpl[i].name, tmpl[i].configItems[j].0, tmpl[i].configItems[j].1,
                            groups[tmpl[i].name].configGroupId) in ItemCandidates(groups, tmpl, appId)
    decreases |tmpl|
  {
    var n := |tmpl| - 1;
    if i < n {
      var prefix := tmpl[..n];
      assert prefix[i] == tmpl[i];
      ItemCandidatesComplete(groups, prefix, appId, i, j);
    } else {
      var items := GroupItems(groups[tmpl[n].name], tmpl[n].name, tmpl[n].configItems, appId);
      assert items[j] in items;
    }
  }

  // ---------------------------------------------------------------------
  // Group-component bindings
  // ---------------------------------------------------------------------

  /** The bindings of one template group `g` to the listed component keys
      that resolve to a component. */
  function GroupBindings(components: map<string, Component>, g: ConfigGroup, keys: seq<string>,
                         appId: string): seq<ConfigGroupService>
    decreases |keys|
  {
    if keys == [] then []
    else
      var k := keys[|keys| - 1];
      GroupBindings(components, g, keys[..|keys| - 1], appId)
      + (if k in components
         then [ConfigGroupService(appId, g.configGroupName, components[k].component.componentId, g.configGroupId)]
         else [])
  }

  function EntryBindings(components: map<string, Component>, groups: map<string, ConfigGroup>,
                         cg: ConfigGroupTmpl, appId: string): seq<ConfigGroupService>
  {
    if cg.name !in groups then [] else GroupBindings(components, groups[cg.name], cg.componentKeys, appId)
  }

  function BindingCandidates(components: map<string, Component>, groups: map<string, ConfigGroup>,
                             tmpl: seq<ConfigGroupTmpl>, appId: string): seq<ConfigGroupService>
    decreases |tmpl|
  {
    if tmpl == [] then []
    else BindingCandidates(components, groups, tmpl[..|tmpl| - 1], appId)
         + EntryBindings(components, groups, tmpl[|tmpl| - 1], appId)
  }

  /** The inner loop of `_config_group_components`: the bindings of one
      template group whose key is not among `bindingKeys`, appended. */
  method AddGroupBindings(bindings: seq<ConfigGroupService>, bindingKeys: seq<string>,
                          components: map<string, Component>, configGroup: ConfigGroup,
                          componentKeys: seq<string>, appId: string) returns (r: seq<ConfigGroupService>)
    ensures r == bindings + Unseen(GroupBindings(components, configGroup, componentKeys, appId), bindingKeys, BindingKeyOf)
  {
    r := bindings;
    var j := 0;
    while j < |componentKeys|
      invariant 0 <= j <= |componentKeys|
      invariant r == bindings + Unseen(GroupBindings(components, configGroup, componentKeys[..j], appId),
                                       bindingKeys, BindingKeyOf)
    {
      var componentKey := componentKeys[j];
      assert componentKeys[..j + 1][..j] == componentKeys[..j];
      ghost var done := GroupBindings(components, configGroup, componentKeys[..j], appId);
      if componentKey !in components {
        assert GroupBindings(components, configGroup, componentKeys[..j + 1], appId) == done + [];
        assert done + [] == done;
        j := j + 1;
        continue;
      }
      var cpt := components[componentKey];
      var key := configGroup.configGroupName + cpt.component.componentId;
      var cgc := ConfigGroupService(appId, configGroup.configGroupName, cpt.component.componentId, configGroup.configGroupId);
      assert GroupBindings(components, configGroup, componentKeys[..j + 1], appId) == done + [cgc];
      UnseenSnoc(bindings, done, cgc, bindingKeys, BindingKeyOf, r);
      if key !in bindingKeys {
        r := r + [cgc];
      }
      j := j + 1;
    }
    assert componentKeys[..j] == componentKeys;
  }

  /** One template group of `_config_group_components`: skipped when no
      group of its name exists. */
  method AddEntryBindings(bindings: seq<ConfigGroupService>, bindingKeys: seq<string>,
                          components: map<string, Component>, groups: map<string, ConfigGroup>,
                          cg: ConfigGroupTmpl, appId: string) returns (r: seq<ConfigGroupService>)
    ensures r == bindings + Unseen(EntryBindings(components, groups, cg, appId), bindingKeys, BindingKeyOf)
  {
    if cg.name !in groups {
      assert bindings + [] == bindings;
      return bindings;
    }
    var configGroup := groups[cg.name];
    r := AddGroupBindings(bindings, bindingKeys, components, configGroup, cg.componentKeys, appId);
  }

  lemma BindingCandidatesSnoc(components: map<string, Component>, groups: map<string, ConfigGroup>,
                              tmpl: seq<ConfigGroupTmpl>, appId: string, i: nat)
    requires i < |tmpl|
    ensures BindingCandidates(components, groups, tmpl[..i + 1], appId)
         == BindingCandidates(components, groups, tmpl[..i], appId) + EntryBindings(components, groups, tmpl[i], appId)
  {
    assert tmpl[..i + 1][..i] == tmpl[..i];
    assert tmpl[..i + 1][i] == tmpl[i];
  }

  /** One more template group appends the unseen bindings of that group. */
  lemma AddBindingsStep(existing: seq<ConfigGroupService>, bindingKeys: seq<string>,
                        components: map<string, Component>, groups: map<string, ConfigGroup>,
                        tmpl: seq<ConfigGroupTmpl>, appId: string, i: nat, bindings: seq<ConfigGroupService>)
    requires i < |tmpl|
    requires bindings == existing + Unseen(BindingCandidates(components, groups, tmpl[..i], appId), bindingKeys, BindingKeyOf)
    ensures bindings + Unseen(EntryBindings(components, groups, tmpl[i], appId), bindingKeys, BindingKeyOf)
         == existing + Unseen(BindingCandidates(components, groups, tmpl[..i + 1], appId), bindingKeys, BindingKeyOf)
  {
    BindingCandidatesSnoc(components, groups, tmpl, appId, i);
    UnseenConcat(existing, BindingCandidates(components, groups, tmpl[..i], appId),
                 EntryBindings(components, groups, tmpl[i], appId), bindingKeys, BindingKeyOf);
  }

  /** The loop of `_config_group_components` over the template groups. */
  method AddBindings(existing: seq<ConfigGroupService>, bindingKeys: seq<string>, components: map<string, Component>,
                     groups: map<string, ConfigGroup>, tmpl: seq<ConfigGroupTmpl>, appId: string)
    returns (bindings: seq<ConfigGroupService>)
    ensures bindings == existing + Unseen(BindingCandidates(components, groups, tmpl, appId), bindingKeys, BindingKeyOf)
  {
    bindings := existing;
    var i := 0;
    while i < |tmpl|
      invariant 0 <= i <= |tmpl|
      invariant bindings == existing + Unseen(BindingCandidates(components, groups, tmpl[..i], appId), bindingKeys, BindingKeyOf)
    {
      AddBindingsStep(existing, bindingKeys, components, groups, tmpl, appId, i, bindings);
      bindings := AddEntryBindings(bindings, bindingKeys, components, groups, tmpl[i], appId);
      i := i + 1;
    }
    assert tmpl[..i] == tmpl;
  }

  /** `_config_group_components`: the existing bindings followed by one
      binding per template (group, component key) pair whose group exists
      and whose key resolves to a component, unless
      `group name + component id` is an existing binding's key. */
  method ConfigGroupComponents(cpts: seq<Component>, configGroups: seq<ConfigGroup>,
                               existing: seq<ConfigGroupService>, template: AppTemplate, appId: string)
    returns (bindings: seq<ConfigGroupService>)
    ensures bindings == OnlyAdd(existing, BindingCandidates(ComponentsByKey(cpts), GroupsByName(configGroups),
                                                            template.configGroups, appId), BindingKeyOf)
  {
    var components := ComponentsByKey(cpts);
    var groups := GroupsByName(configGroups);
    var bindingKeys := KeysOf(existing, BindingKeyOf);
    bindings := AddBindings(existing, bindingKeys, components, groups, template.configGroups, appId);
  }

  /** Every binding candidate joins an existing group (by its id) to a
      component that a template group of that name lists by service key;
      conversely every listed key that resolves, in a group that exists,
      gives a candidate. */
  lemma {:induction false} BindingCandidatesSound(components: map<string, Component>, groups: map<string, ConfigGroup>,
                                                  tmpl: seq<ConfigGroupTmpl>, appId: string, b: ConfigGroupService)
    requires b in BindingCandidates(components, groups, tmpl, appId)
    ensures exists i, j :: 0 <= i < |tmpl| && 0 <= j < |tmpl[i].componentKeys|
              && tmpl[i].name in groups && tmpl[i].componentKeys[j] in components
              && b == ConfigGroupService(appId, groups[tmpl[i].name].configGroupName,
                                         components[tmpl[i].componentKeys[j]].component.componentId,
                                         groups[tmpl[i].name].configGroupId)
    decreases |tmpl|
  {
    var n := |tmpl| - 1;
    var prefix := tmpl[..n];
    if b in BindingCandidates(components, groups, prefix, appId) {
      BindingCandidatesSound(components, groups, prefix, appId, b);
      var i, j :| 0 <= i < |prefix| && 0 <= j < |prefix[i].componentKeys|
                  && prefix[i].name in groups && prefix[i].componentKeys[j] in components
                  && b == ConfigGroupService(appId, groups[prefix[i].name].configGroupName,
                                             components[prefix[i].componentKeys[j]].component.componentId,
                                             groups[prefix[i].name].configGroupId);
      assert tmpl[i] == prefix[i];
    } else {
      var cg := tmpl[n];
      var j := GroupBindingsSound(components, groups[cg.name], cg.componentKeys, appId, b);
    }
  }

  lemma {:induction false} GroupBindingsSound(components: map<string, Component>, g: ConfigGroup, keys: seq<string>,
                                              appId: string, b: ConfigGroupService) returns (j: nat)
    requires b in GroupBindings(components, g, keys, appId)
    ensures j < |keys| && keys[j] in components
    ensures b == ConfigGroupService(appId, g.configGroupName, components[keys[j]].component.componentId, g.configGroupId)
    decreases |keys|
  {
    var n := |keys| - 1;
    var prefix := keys[..n];
    if b in GroupBindings(components, g, prefix, appId) {
      j := GroupBindingsSound(components, g, prefix, appId, b);
      assert keys[j] == prefix[j];
    } else {
      j := n;
    }
  }

  lemma {:induction false} GroupBindingsComplete(components: map<string, Component>, g: ConfigGroup, keys: seq<string>,
                                                 appId: string, j: nat)
    requires j < |keys| && keys[j] in components
    ensures ConfigGroupService(appId, g.configGroupName, components[keys[j]].component.componentId, g.configGroupId)
            in GroupBindings(components, g, keys, appId)
    decreases |keys|
  {
    var n := |keys| - 1;
    if j < n {
      var prefix := keys[..n];
      assert prefix[j] == keys[j];
      GroupBindingsComplete(components, g, prefix, appId, j);
    }
  }

  lemma {:induction false} BindingCandidatesComplete(components: map<string, Component>, groups: map<string, ConfigGroup>,
                                                     tmpl: seq<ConfigGroupTmpl>, appId: string, i: nat, j: nat)
    requires i < |tmpl| && j < |tmpl[i].componentKeys|
    requires tmpl[i].name in groups && tmpl[i].componentKeys[j] in components
    ensures ConfigGroupService(appId, groups[tmpl[i].name].configGroupName,
                               components[tmpl[i].componentKeys[j]].component.componentId,
                               groups[tmpl[i].name].configGroupId)
            in BindingCandidates(components, groups, tmpl, appId)
    decreases |tmpl|
  {
    var n := |tmpl| - 1;
    if i < n {
      var prefix := tmpl[..n];
      assert prefix[i] == tmpl[i];
      BindingCandidatesComplete(components, groups, prefix, appId, i, j);
    } else {
      GroupBindingsComplete(components, groups[tmpl[n].name], tmpl[n].componentKeys, appId, j);
    }
  }
}
