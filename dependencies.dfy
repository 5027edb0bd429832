/** Component-dependency edges derived from the application template.

    Every template entry lists, in `dep_service_map_list`, the share-UUIDs
    of the components it depends on. An edge is produced for each listed
    pair whose two share-UUIDs both resolve, through a share-UUID to
    component table, to a component of the app. `NewApp` additionally
    suppresses pairs whose key is found in a table of existing edges; the
    key it looks up is a concatenation of two strings, and `KeyScheme` says
    which two. */
module Dependencies {
  import opened Common
  import opened Entities

  /** The two ways of forming the lookup key of a template pair:
      `ShareKeys` concatenates the two share-UUIDs (new_app.py:160),
      `ComponentIds` concatenates the two resolved component ids, which is
      how the existing-edge table is keyed (new_app.py:143). */
  datatype KeyScheme = ShareKeys | ComponentIds

  /** The edge from `own` to `dep`: type "application", order 0. */
  function DepEdge(own: ServiceRecord, dep: ServiceRecord): (e: Dep)
    ensures e.serviceId == own.componentId && e.depServiceId == dep.componentId
    ensures e.tenantId == own.tenantId
    ensures e.depServiceType == "application" && e.depOrder == 0
  {
    Dep(own.tenantId, own.componentId, dep.componentId, "application", 0)
  }

  /** `service_id + dep_service_id` of every existing edge. */
  function EdgeKeys(deps: seq<Dep>): (keys: set<string>)
    ensures forall d :: d in deps ==> d.serviceId + d.depServiceId in keys
    ensures forall k :: k in keys ==> exists d :: d in deps && k == d.serviceId + d.depServiceId
  {
    set d | d in deps :: d.serviceId + d.depServiceId
  }

  function PairKey(index: map<string, ServiceRecord>, scheme: KeyScheme, ownKey: string, depKey: string): string
    requires ownKey in index && depKey in index
  {
    match scheme
    case ShareKeys => ownKey + depKey
    case ComponentIds => index[ownKey].componentId + index[depKey].componentId
  }

  /** The template pair (ownKey, depKey) yields edge `e`: both share-UUIDs
      resolve, the pair's key is not in `table`, and `e` joins the two
      resolved components. */
  ghost predicate Emits(index: map<string, ServiceRecord>, table: set<string>, scheme: KeyScheme,
                        ownKey: string, depKey: string, e: Dep)
  {
    && ownKey in index && depKey in index
    && PairKey(index, scheme, ownKey, depKey) !in table
    && e == DepEdge(index[ownKey], index[depKey])
  }

  /** The edge (if any) produced by one template pair. */
  function PairEdges(index: map<string, ServiceRecord>, table: set<string>, scheme: KeyScheme,
                     ownKey: string, depKey: string): (es: seq<Dep>)
    ensures |es| <= 1
    ensures forall e :: e in es <==> Emits(index, table, scheme, ownKey, depKey, e)
  {
    if ownKey in index && depKey in index && PairKey(index, scheme, ownKey, depKey) !in table
    then [DepEdge(index[ownKey], index[depKey])]
    else []
  }

  /** The edges produced by one template entry, in `dep_service_map_list` order. */
  function EntryEdges(index: map<string, ServiceRecord>, table: set<string>, scheme: KeyScheme,
                      ownKey: string, depKeys: seq<string>): seq<Dep>
    decreases |depKeys|
  {
    if depKeys == [] then []
    else EntryEdges(index, table, scheme, ownKey, depKeys[..|depKeys| - 1])
         + PairEdges(index, table, scheme, ownKey, depKeys[|depKeys| - 1])
  }

  /** The edges produced by the whole template, entry by entry. */
  function TemplateEdges(index: map<string, ServiceRecord>, table: set<string>, scheme: KeyScheme,
                         apps: seq<AppTmpl>): seq<Dep>
    decreases |apps|
  {
    if apps == [] then []
    else
      var t := apps[|apps| - 1];
      TemplateEdges(index, table, scheme, apps[..|apps| - 1])
      + EntryEdges(index, table, scheme, t.serviceShareUuid, t.depServiceKeys)
  }

  /** One more dependency key extends an entry's edges by that pair's edge. */
  lemma EntryEdgesStep(index: map<string, ServiceRecord>, table: set<string>, scheme: KeyScheme,
                       ownKey: string, depKeys: seq<string>, j: nat)
    requires j < |depKeys|
    ensures EntryEdges(index, table, scheme, ownKey, depKeys[..j + 1])
            == EntryEdges(index, table, scheme, ownKey, depKeys[..j]) + PairEdges(index, table, scheme, ownKey, depKeys[j])
  {
    assert depKeys[..j + 1][..j] == depKeys[..j];
  }

  /** One more template entry extends the template's edges by that entry's edges. */
  lemma TemplateEdgesStep(index: map<string, ServiceRecord>, table: set<string>, scheme: KeyScheme,
                          apps: seq<AppTmpl>, i: nat)
    requires i < |apps|
    ensures TemplateEdges(index, table, scheme, apps[..i + 1])
            == TemplateEdges(index, table, scheme, apps[..i])
               + EntryEdges(index, table, scheme, apps[i].serviceShareUuid, apps[i].depServiceKeys)
  {
    assert apps[..i + 1][..i] == apps[..i];
  }

  lemma {:induction false} EntryEdgesSound(index: map<string, ServiceRecord>, table: set<string>,
                                           scheme: KeyScheme, ownKey: string, depKeys: seq<string>, e: Dep)
    requires e in EntryEdges(index, table, scheme, ownKey, depKeys)
    ensures exists j :: 0 <= j < |depKeys| && Emits(index, table, scheme, ownKey, depKeys[j], e)
    decreases |depKeys|
  {
    var n := |depKeys| - 1;
    var prefix := depKeys[..n];
    if e in EntryEdges(index, table, scheme, ownKey, prefix) {
      EntryEdgesSound(index, table, scheme, ownKey, prefix, e);
      var j :| 0 <= j < |prefix| && Emits(index, table, scheme, ownKey, prefix[j], e);
      assert depKeys[j] == prefix[j];
    } else {
      assert Emits(index, table, scheme, ownKey, depKeys[n], e);
    }
  }

  lemma {:induction false} EntryEdgesComplete(index: map<string, ServiceRecord>, table: set<string>,
                                              scheme: KeyScheme, ownKey: string, depKeys: seq<string>, j: nat, e: Dep)
    requires j < |depKeys| && Emits(index, table, scheme, ownKey, depKeys[j], e)
    ensures e in EntryEdges(index, table, scheme, ownKey, depKeys)
    decreases |depKeys|
  {
    var n := |depKeys| - 1;
    if j < n {
      var prefix := depKeys[..n];
      assert prefix[j] == depKeys[j];
      EntryEdgesComplete(index, table, scheme, ownKey, prefix, j, e);
    }
  }

  lemma {:induction false} TemplateEdgesSound(index: map<string, ServiceRecord>, table: set<string>,
                                              scheme: KeyScheme, apps: seq<AppTmpl>, e: Dep)
    requires e in TemplateEdges(index, table, scheme, apps)
    ensures exists i, j :: 0 <= i < |apps| && 0 <= j < |apps[i].depServiceKeys|
              && Emits(index, table, scheme, apps[i].serviceShareUuid, apps[i].depServiceKeys[j], e)
    decreases |apps|
  {
    var n := |apps| - 1;
    var prefix := apps[..n];
    var t := apps[n];
    if e in TemplateEdges(index, table, scheme, prefix) {
      TemplateEdgesSound(index, table, scheme, prefix, e);
      var i, j :| 0 <= i < |prefix| && 0 <= j < |prefix[i].depServiceKeys|
                  && Emits(index, table, scheme, prefix[i].serviceShareUuid, prefix[i].depServiceKeys[j], e);
      assert apps[i] == prefix[i];
    } else {
      EntryEdgesSound(index, table, scheme, t.serviceShareUuid, t.depServiceKeys, e);
    }
  }

  lemma {:induction false} TemplateEdgesComplete(index: map<string, ServiceRecord>, table: set<string>,
                                                 scheme: KeyScheme, apps: seq<AppTmpl>, i: nat, j: nat, e: Dep)
    requires i < |apps| && j < |apps[i].depServiceKeys|
    requires Emits(index, table, scheme, apps[i].serviceShareUuid, apps[i].depServiceKeys[j], e)
    ensures e in TemplateEdges(index, table, scheme, apps)
    decreases |apps|
  {
    var n := |apps| - 1;
    if i < n {
      var prefix := apps[..n];
      assert prefix[i] == apps[i];
      TemplateEdgesComplete(index, table, scheme, prefix, i, j, e);
    } else {
      EntryEdgesComplete(index, table, scheme, apps[n].serviceShareUuid, apps[n].depServiceKeys, j, e);
    }
  }

  /** An edge is produced exactly when some template entry lists a
      dependency such that both share-UUIDs resolve and the pair's key is
      not in the table; the edge joins those two components, with type
      "application" and order 0. */
  lemma TemplateEdgesMembers(index: map<string, ServiceRecord>, table: set<string>,
                             scheme: KeyScheme, apps: seq<AppTmpl>, e: Dep)
    ensures e in TemplateEdges(index, table, scheme, apps)
            <==> exists i, j :: 0 <= i < |apps| && 0 <= j < |apps[i].depServiceKeys|
                   && Emits(index, table, scheme, apps[i].serviceShareUuid, apps[i].depServiceKeys[j], e)
  {
    if e in TemplateEdges(index, table, scheme, apps) {
      TemplateEdgesSound(index, table, scheme, apps, e);
    }
    if exists i, j :: 0 <= i < |apps| && 0 <= j < |apps[i].depServiceKeys|
         && Emits(index, table, scheme, apps[i].serviceShareUuid, apps[i].depServiceKeys[j], e) {
      var i, j :| 0 <= i < |apps| && 0 <= j < |apps[i].depServiceKeys|
                  && Emits(index, table, scheme, apps[i].serviceShareUuid, apps[i].depServiceKeys[j], e);
      TemplateEdgesComplete(index, table, scheme, apps, i, j, e);
    }
  }

  /** Keyed by component ids, the suppression test does what it is for: no
      produced edge joins the same two components as an existing edge. */
  lemma ByIdNeverDuplicates(index: map<string, ServiceRecord>, existing: seq<Dep>, apps: seq<AppTmpl>)
    ensures forall e, x :: e in TemplateEdges(index, EdgeKeys(existing), ComponentIds, apps) && x in existing
              ==> !(x.serviceId == e.serviceId && x.depServiceId == e.depServiceId)
  {
    forall e, x | e in TemplateEdges(index, EdgeKeys(existing), ComponentIds, apps) && x in existing
      ensures !(x.serviceId == e.serviceId && x.depServiceId == e.depServiceId)
    {
      TemplateEdgesMembers(index, EdgeKeys(existing), ComponentIds, apps, e);
    }
  }

  /** Keyed by component ids, edge derivation is idempotent: run again
      with its own output added to the existing edges, it produces nothing. */
  lemma ByIdIdempotent(index: map<string, ServiceRecord>, existing: seq<Dep>, apps: seq<AppTmpl>)
    ensures var first := TemplateEdges(index, EdgeKeys(existing), ComponentIds, apps);
            TemplateEdges(index, EdgeKeys(first + existing), ComponentIds, apps) == []
  {
    var first := TemplateEdges(index, EdgeKeys(existing), ComponentIds, apps);
    var second := TemplateEdges(index, EdgeKeys(first + existing), ComponentIds, apps);
    if second != [] {
      var e := second[0];
      TemplateEdgesSound(index, EdgeKeys(first + existing), ComponentIds, apps, e);
      var i, j :| 0 <= i < |apps| && 0 <= j < |apps[i].depServiceKeys|
                  && Emits(index, EdgeKeys(first + existing), ComponentIds, apps[i].serviceShareUuid, apps[i].depServiceKeys[j], e);
      EdgeKeysMonotone(existing, first + existing);
      TemplateEdgesComplete(index, EdgeKeys(existing), ComponentIds, apps, i, j, e);
      assert false;
    }
  }

  lemma EdgeKeysMonotone(small: seq<Dep>, large: seq<Dep>)
    requires forall d :: d in small ==> d in large
    ensures EdgeKeys(small) <= EdgeKeys(large)
  {
  }

  /** As written, the suppression key is formed from share-UUIDs while the
      table holds component ids, so an existing edge is produced again:
      components "a" and "b" with share-UUIDs "u1" and "u2", an existing
      edge a -> b, and a template entry u1 -> u2. */
  lemma ShareKeysMissExistingEdge()
    ensures var a := ServiceRecord("t", "a", "web", "web", "gr000001");
            var b := ServiceRecord("t", "b", "db", "db", "gr000002");
            var index := map["u1" := a, "u2" := b];
            var apps := [AppTmpl("web", "u1", "s1", ["u2"], [], [])];
            var existing := [DepEdge(a, b)];
            TemplateEdges(index, EdgeKeys(existing), ShareKeys, apps) == existing
  {
    var a := ServiceRecord("t", "a", "web", "web", "gr000001");
    var b := ServiceRecord("t", "b", "db", "db", "gr000002");
    var index := map["u1" := a, "u2" := b];
    var apps := [AppTmpl("web", "u1", "s1", ["u2"], [], [])];
    var existing := [DepEdge(a, b)];
    assert "u1" + "u2" == "u1u2";
    assert "u1u2" !in EdgeKeys(existing);
    assert PairEdges(index, EdgeKeys(existing), ShareKeys, "u1", "u2") == existing;
    assert apps[..0] == [];
    assert ["u2"][..0] == [];
  }
}
