/** What an accepted binding or proof says about the host, looked up in the records themselves. */
module ToolSurfaceMeaning {
  import opened Wrappers
  import opened Json
  import opened ToolSurface
  import CJ = CanonicalJson
  import EI = EndpointInventory
  import Sorting
  import Text

  /** `v[path[0]][path[1]]...` */
  function At(v: Json, path: seq<string>): Option<Json>
    decreases |path|
  {
    if path == [] then Some(v)
    else
      var inner := Member(v, path[0]);
      if inner.None? then None else At(inner.value, path[1..])
  }

  // ---------- lookups in dicts ----------

  ghost predicate KeysDiffer(fields: seq<Field>) {
    forall i, j :: 0 <= i < j < |fields| ==> fields[i].key != fields[j].key
  }

  lemma {:induction false} DictLookup(fields: seq<Field>, key: string)
    requires ValuesWellKeyed(fields)
    ensures CJ.DistinctKeys(DictOf(fields))
    ensures Get(DictOf(fields), key).Some? <==> exists f :: f in fields && f.key == key
    ensures Get(DictOf(fields), key).Some? ==> Field(key, Get(DictOf(fields), key).value) in fields
  {
    if fields != [] {
      var n := |fields| - 1;
      DictLookup(fields[..n], key);
      assert fields == fields[..n] + [fields[n]];
      PutKeepsKeysDistinct(DictOf(fields[..n]), fields[n].key, fields[n].value, key);
    }
  }

  lemma DistinctLookup(fields: seq<Field>, i: nat)
    requires ValuesWellKeyed(fields) && KeysDiffer(fields) && i < |fields|
    ensures Member(Dict(fields), fields[i].key) == Some(fields[i].value)
  {
    DictLookup(fields, fields[i].key);
    var v := Get(DictOf(fields), fields[i].key).value;
    var j :| 0 <= j < |fields| && fields[j] == Field(fields[i].key, v);
    assert j == i;
  }

  lemma AllLookups(fields: seq<Field>)
    requires ValuesWellKeyed(fields) && KeysDiffer(fields)
    ensures forall i :: 0 <= i < |fields| ==> Member(Dict(fields), fields[i].key) == Some(fields[i].value)
  {
    forall i | 0 <= i < |fields| ensures Member(Dict(fields), fields[i].key) == Some(fields[i].value) {
      DistinctLookup(fields, i);
    }
  }

  lemma EachLookup(names: seq<string>, value: Value, name: string)
    ensures Member(Each(names, value), name) == if name in names then Some(value) else None
  {
    var fields := seq(|names|, i requires 0 <= i < |names| => Field(names[i], value));
    DictLookup(fields, name);
    if name in names {
      var i :| 0 <= i < |names| && names[i] == name;
      assert fields[i] == Field(name, value) && fields[i] in fields;
    }
  }

  // ---------- the same JSON answers lookups alike ----------

  lemma SameMember(a: Value, b: Value, key: string)
    requires CJ.SameJson(a, b) && b.Obj?
    ensures Member(a, key).Some? <==> Member(b, key).Some?
    ensures Member(b, key).Some? ==>
              && CJ.WellKeyed(Member(a, key).value) && CJ.WellKeyed(Member(b, key).value)
              && CJ.SameJson(Member(a, key).value, Member(b, key).value)
  {
    CJ.SameIffCanonical(a, b);
    CJ.CanonicalFieldsFacts(a.fields, key);
    CJ.CanonicalFieldsFacts(b.fields, key);
    CJ.GetFindsKeys(a.fields, key);
    CJ.GetFindsKeys(b.fields, key);
    if Member(b, key).Some? {
      CJ.SameIffCanonical(Member(a, key).value, Member(b, key).value);
    }
  }

  predicate Scalar(v: Json) {
    !v.Arr? && !v.Obj?
  }

  /** Where the one leads to a scalar, the other leads to the same; where it leads nowhere, so does the other. */
  lemma {:induction false} SameAt(a: Value, b: Value, path: seq<string>)
    requires CJ.SameJson(a, b)
    ensures At(b, path).None? <==> At(a, path).None?
    ensures At(b, path).Some? && Scalar(At(b, path).value) ==> At(a, path) == At(b, path)
    decreases |path|
  {
    if path != [] {
      if b.Obj? {
        SameMember(a, b, path[0]);
        if Member(b, path[0]).Some? {
          SameAt(Member(a, path[0]).value, Member(b, path[0]).value, path[1..]);
        }
      } else {
        NoObject(a, b);
      }
    }
  }

  lemma NoObject(a: Value, b: Value)
    requires CJ.SameJson(a, b) && !b.Obj?
    ensures !a.Obj?
  {
  }

  // ---------- the lockdown ----------

  /** Every optional source of tools is switched off, with the servers named and no others, and this is the catalog. */
  ghost predicate LockedDown(v: Json, catalog: string, servers: seq<string>) {
    && At(v, ["model_catalog_json"]) == Some(Str(catalog))
    && At(v, ["web_search"]) == Some(Str("disabled"))
    && At(v, ["agents", "enabled"]) == Some(Bool(false))
    && At(v, ["tools", "experimental_request_user_input", "enabled"]) == Some(Bool(false))
    && At(v, ["tools", "update_plan", "enabled"]) == Some(Bool(false))
    && (forall f :: f in DISABLED_FEATURES ==> At(v, ["features", f]) == Some(Bool(false)))
    && (forall name :: At(v, ["mcp_servers", name]).Some? <==> name in servers)
    && (forall name :: name in servers ==> At(v, ["mcp_servers", name, "enabled"]) == Some(Bool(false)))
  }

  lemma AtOne(v: Json, key: string)
    ensures At(v, [key]) == Member(v, key)
  {
    assert [key][1..] == [];
  }

  lemma AtTwo(v: Json, a: string, b: string)
    ensures At(v, [a, b]) == if Member(v, a).Some? then Member(Member(v, a).value, b) else None
  {
    assert [a, b][1..] == [b];
    if Member(v, a).Some? {
      AtOne(Member(v, a).value, b);
    }
  }

  lemma AtThree(v: Json, a: string, b: string, c: string)
    ensures At(v, [a, b, c]) == if Member(v, a).Some? then At(Member(v, a).value, [b, c]) else None
  {
    assert [a, b, c][1..] == [b, c];
  }

  lemma DisabledIs()
    ensures Member(Disabled(), "enabled") == Some(Bool(false))
  {
    DistinctLookup([Field("enabled", Bool(false))], 0);
  }

  lemma LockdownFields(catalog: string, servers: seq<string>)
    ensures var v := LockdownFor(catalog, servers);
            && Member(v, "model_catalog_json") == Some(Str(catalog)) && Member(v, "web_search") == Some(Str("disabled"))
            && Member(v, "tools") == Some(DisabledTools()) && Member(v, "agents") == Some(Disabled())
            && Member(v, "features") == Some(DisabledFeatures())
            && Member(v, "mcp_servers") == Some(DisabledServers(servers))
  {
    var off: Value := Str("disabled");
    SixMembers("model_catalog_json", "web_search", "tools", "agents", "features", "mcp_servers",
               Str(catalog), off, DisabledTools(), Disabled(), DisabledFeatures(), DisabledServers(servers));
  }

  /** Six keys of different lengths, each with its value. */
  lemma SixMembers(a: string, b: string, c: string, d: string, e: string, f: string,
                   u: Value, v: Value, w: Value, x: Value, y: Value, z: Value)
    requires |a| == 18 && |b| == 10 && |c| == 5 && |d| == 6 && |e| == 8 && |f| == 11
    ensures var dict := Dict([Field(a, u), Field(b, v), Field(c, w), Field(d, x), Field(e, y), Field(f, z)]);
            && Member(dict, a) == Some(u) && Member(dict, b) == Some(v) && Member(dict, c) == Some(w)
            && Member(dict, d) == Some(x) && Member(dict, e) == Some(y) && Member(dict, f) == Some(z)
  {
    var fields := [Field(a, u), Field(b, v), Field(c, w), Field(d, x), Field(e, y), Field(f, z)];
    assert KeysDiffer(fields);
    AllLookups(fields);
    assert Member(Dict(fields), fields[0].key) == Some(u) && Member(Dict(fields), fields[1].key) == Some(v);
    assert Member(Dict(fields), fields[2].key) == Some(w) && Member(Dict(fields), fields[3].key) == Some(x);
    assert Member(Dict(fields), fields[4].key) == Some(y) && Member(Dict(fields), fields[5].key) == Some(z);
  }

  lemma LockdownIs(catalog: string, servers: seq<string>)
    ensures LockedDown(LockdownFor(catalog, servers), catalog, servers)
  {
    var v := LockdownFor(catalog, servers);
    LockdownFields(catalog, servers);
    DisabledIs();
    AtOne(v, "model_catalog_json");
    AtOne(v, "web_search");
    AtTwo(v, "agents", "enabled");
    ToolsOff(v);
    FeaturesOff(v);
    ServersOff(v, servers);
  }

  lemma ToolsOff(v: Json)
    requires Member(v, "tools") == Some(DisabledTools())
    ensures At(v, ["tools", "experimental_request_user_input", "enabled"]) == Some(Bool(false))
    ensures At(v, ["tools", "update_plan", "enabled"]) == Some(Bool(false))
  {
    var names := ["experimental_request_user_input", "update_plan"];
    assert names[0] in names && names[1] in names;
    EachLookup(names, Disabled(), names[0]);
    EachLookup(names, Disabled(), names[1]);
    OffAt(v, "tools", names[0]);
    OffAt(v, "tools", names[1]);
  }

  lemma OffAt(v: Json, group: string, name: string)
    requires Member(v, group).Some? && Member(Member(v, group).value, name) == Some(Disabled())
    ensures At(v, [group, name, "enabled"]) == Some(Bool(false))
  {
    AtThree(v, group, name, "enabled");
    AtTwo(Member(v, group).value, name, "enabled");
    DisabledIs();
  }

  lemma FeaturesOff(v: Json)
    requires Member(v, "features") == Some(DisabledFeatures())
    ensures forall f :: f in DISABLED_FEATURES ==> At(v, ["features", f]) == Some(Bool(false))
  {
    forall f | f in DISABLED_FEATURES ensures At(v, ["features", f]) == Some(Bool(false)) {
      EachLookup(DISABLED_FEATURES, Bool(false), f);
      AtTwo(v, "features", f);
    }
  }

  lemma ServersOff(v: Json, servers: seq<string>)
    requires Member(v, "mcp_servers") == Some(DisabledServers(servers))
    ensures forall name :: At(v, ["mcp_servers", name]).Some? <==> name in servers
    ensures forall name :: name in servers ==> At(v, ["mcp_servers", name, "enabled"]) == Some(Bool(false))
  {
    var sorted := Sorting.Sort(Text.LexLe, servers);
    forall name: string
      ensures At(v, ["mcp_servers", name]).Some? <==> name in servers
      ensures name in servers ==> At(v, ["mcp_servers", name, "enabled"]) == Some(Bool(false))
    {
      assert name in sorted <==> name in multiset(sorted);
      assert name in servers <==> name in multiset(servers);
      EachLookup(sorted, Disabled(), name);
      AtTwo(v, "mcp_servers", name);
      if name in servers {
        OffAt(v, "mcp_servers", name);
      }
    }
  }

  /** JSON that compares as the same is locked down alike. */
  lemma LockedDownAlike(a: Value, b: Value, catalog: string, servers: seq<string>)
    requires CJ.SameJson(a, b) && LockedDown(b, catalog, servers)
    ensures LockedDown(a, catalog, servers)
  {
    SameAt(a, b, ["model_catalog_json"]);
    SameAt(a, b, ["web_search"]);
    SameAt(a, b, ["agents", "enabled"]);
    SameAt(a, b, ["tools", "experimental_request_user_input", "enabled"]);
    SameAt(a, b, ["tools", "update_plan", "enabled"]);
    forall f | f in DISABLED_FEATURES ensures At(a, ["features", f]) == Some(Bool(false)) {
      SameAt(a, b, ["features", f]);
    }
    forall name: string
      ensures At(a, ["mcp_servers", name]).Some? <==> name in servers
      ensures name in servers ==> At(a, ["mcp_servers", name, "enabled"]) == Some(Bool(false))
    {
      SameAt(a, b, ["mcp_servers", name]);
      SameAt(a, b, ["mcp_servers", name, "enabled"]);
    }
  }

  // ---------- effects ----------

  /** No network, no approvals, no endpoints; the sandbox is writable exactly if the patch tool is allowed. */
  ghost predicate Confined(v: Json, patching: bool) {
    && At(v, ["network_access"]) == Some(Bool(false)) && At(v, ["approval_policy"]) == Some(Str("never"))
    && At(v, ["mcp_endpoints"]) == Some(Str("none"))
    && At(v, ["sandbox"]) == Some(Str(if patching then "workspaceWrite" else "readOnly"))
  }

  lemma PatchingIffMutable(p: Profile)
    ensures Mutable(p) <==> ApplyPatch in ProfileTools(p)
  {
  }

  lemma EffectPolicyIs(p: Profile)
    ensures Confined(EffectPolicy(p), ApplyPatch in ProfileTools(p))
  {
    var sandbox := Str(if Mutable(p) then "workspaceWrite" else "readOnly");
    var fields := [Field("sandbox", sandbox), Field("network_access", Bool(false)),
                   Field("approval_policy", Str("never")), Field("dynamic_tools", Arr([])),
                   Field("mcp_endpoints", Str("none"))];
    FiveKeys("sandbox", "network_access", "approval_policy", "dynamic_tools", "mcp_endpoints", fields);
    DistinctLookup(fields, 0);
    DistinctLookup(fields, 1);
    DistinctLookup(fields, 2);
    DistinctLookup(fields, 4);
    PatchingIffMutable(p);
    assert EffectPolicy(p) == Dict(fields);
    AtOne(Dict(fields), "sandbox");
    AtOne(Dict(fields), "network_access");
    AtOne(Dict(fields), "approval_policy");
    AtOne(Dict(fields), "mcp_endpoints");
  }

  lemma FiveKeys(a: string, b: string, c: string, d: string, e: string, fields: seq<Field>)
    requires |a| == 7 && |b| == 14 && |c| == 15 && |d| == 13 && |e| == 13 && d[0] == 'd' && e[0] == 'm'
    requires |fields| == 5 && fields[0].key == a && fields[1].key == b && fields[2].key == c
    requires fields[3].key == d && fields[4].key == e
    ensures KeysDiffer(fields)
  {
  }

  lemma ConfinedAlike(a: Value, b: Value, patching: bool)
    requires CJ.SameJson(a, b) && Confined(b, patching)
    ensures Confined(a, patching)
  {
    SameAt(a, b, ["sandbox"]);
    SameAt(a, b, ["network_access"]);
    SameAt(a, b, ["approval_policy"]);
    SameAt(a, b, ["mcp_endpoints"]);
  }

  // ---------- bindings and proofs ----------

  /**
   What a body says of the host: the user's own configuration is switched off server by server, the catalog is the live
   one for a profile that may patch and the projection for one that may not, and the effects are confined accordingly.
   */
  ghost predicate Restrains(h: Host, b: Body) {
    var config, patching := h.config(b.codexHome), ApplyPatch in b.requestedTools;
    && config.Some? && config.value.servers.Some?
    && (patching ==> h.catalog(b.codexHome).Some? && b.startupConfig.None?
                     && LockedDown(b.lockdownConfig, h.catalog(b.codexHome).value.path, config.value.servers.value))
    && (!patching ==> b.startupConfig.Some?
                      && LockedDown(b.lockdownConfig, b.startupConfig.value, config.value.servers.value))
    && Confined(b.effectPolicy, patching)
  }

  /** The catalog that threads start from, by the kind of profile. */
  lemma StartCatalogIs(d: Digests, h: Host, home: string, model: string, p: Profile, projection: Option<string>,
                       snapshot: Snapshot)
    requires StartCatalog(d, h, home, model, p, projection, snapshot).Success?
    ensures Mutable(p) <==> projection.None?
    ensures StartCatalog(d, h, home, model, p, projection, snapshot).value ==
            if projection.None? then snapshot.path else h.absolute(projection.value)
  {
  }

  lemma LiveInputsAre(d: Digests, h: Host, home: string, model: string, p: Profile, projection: Option<string>)
    requires LiveInputs(d, h, home, model, p, projection).Success?
    ensures var live := LiveInputs(d, h, home, model, p, projection).value;
            && h.config(home).Some? && h.config(home).value.servers.Some? && h.catalog(home).Some?
            && (Mutable(p) <==> live.startup.None?)
            && var catalog := if live.startup.None? then h.catalog(home).value.path else live.startup.value;
               live.lockdown == LockdownFor(catalog, h.config(home).value.servers.value)
  {
    var snapshot := CatalogSnapshot(h, home, model).value;
    StartCatalogIs(d, h, home, model, p, projection, snapshot);
  }

  lemma CurrentRestrains(d: Digests, h: Host, c: Body)
    requires CurrentFor(d, h, c).Success?
    ensures Restrains(h, CurrentFor(d, h, c).value)
  {
    var live, b := CurrentFacts(d, h, c);
    var home, p := h.resolve(c.codexHome), b.toolProfile;
    BodyIs(d, h, home, c.requestedModel, p, live);
    LiveInputsAre(d, h, home, c.requestedModel, p, c.startupConfig);
    PatchingIffMutable(p);
    EffectPolicyIs(p);
    LockdownIs(if live.startup.None? then h.catalog(home).value.path else live.startup.value,
               h.config(home).value.servers.value);
  }

  lemma BodyIs(d: Digests, h: Host, home: string, model: string, p: Profile, live: Live)
    requires h.binary.Some? && CurrentBody(d, h, home, model, p, live).Success?
    ensures var b := CurrentBody(d, h, home, model, p, live).value;
            && b.codexHome == home && b.requestedTools == ProfileTools(p) && b.lockdownConfig == live.lockdown
            && b.startupConfig == live.startup && b.effectPolicy == EffectPolicy(p)
  {
  }

  /** Every accepted binding restrains the host as it is now. */
  lemma BindingRestrains(d: Digests, h: Host, b: Body)
    requires HostAgrees(d, h, b)
    ensures Restrains(h, b)
  {
    var current := CurrentFor(d, h, b).value;
    CurrentRestrains(d, h, b);
    RestrainsAlike(h, b, current);
  }

  lemma RestrainsAlike(h: Host, a: Body, b: Body)
    requires SameCausal(a, b) && Restrains(h, b)
    ensures Restrains(h, a)
  {
    assert SameField(CodexHome, a, b) && SameField(RequestedTools, a, b) && SameField(StartupConfig, a, b);
    assert SameField(LockdownConfig, a, b) && SameField(EffectPolicyField, a, b);
    var patching, servers := ApplyPatch in b.requestedTools, h.config(b.codexHome).value.servers.value;
    var catalog := if patching then h.catalog(b.codexHome).value.path else b.startupConfig.value;
    LockedDownAlike(a.lockdownConfig, b.lockdownConfig, catalog, servers);
    ConfinedAlike(a.effectPolicy, b.effectPolicy, patching);
  }

  // ---------- the model's catalog entry ----------

  /** Place `i` is the only one with this slug. */
  ghost predicate Only(entries: seq<Entry>, model: string, i: int) {
    0 <= i < |entries| && forall j :: 0 <= j < |entries| ==> (entries[j].slug == model <==> j == i)
  }

  lemma {:induction false} SelectedIs(entries: seq<Entry>, model: string)
    ensures Selected(entries, model).Some? ==>
              exists i :: Only(entries, model, i) && entries[i].value == Selected(entries, model).value
    ensures (exists i :: Only(entries, model, i)) ==> Selected(entries, model).Some?
  {
    if entries != [] {
      var rest := entries[1..];
      SelectedIs(rest, model);
      if entries[0].slug != model {
        OnlyLater(entries, model);
      } else if e :| e in rest && e.slug == model {
        var j :| 0 <= j < |rest| && rest[j] == e;
        assert entries[j + 1].slug == model;
      } else {
        assert forall j :: 0 < j < |entries| ==> entries[j] == rest[j - 1] && rest[j - 1] in rest;
        assert Only(entries, model, 0);
      }
    }
  }

  lemma OnlyLater(entries: seq<Entry>, model: string)
    requires entries != [] && entries[0].slug != model
    ensures forall i :: Only(entries[1..], model, i) ==>
              Only(entries, model, i + 1) && entries[i + 1] == entries[1..][i]
    ensures forall i :: Only(entries, model, i) ==> Only(entries[1..], model, i - 1)
  {
    var rest := entries[1..];
    assert forall j :: 0 < j < |entries| ==> entries[j] == rest[j - 1];
  }

  /** The live catalog has one entry for the model: unified exec, the freeform patch tool, nothing experimental. */
  ghost predicate Operative(h: Host, home: string, model: string, entry: Json) {
    && h.catalog(home).Some?
    && (exists i :: Only(h.catalog(home).value.entries, model, i) && h.catalog(home).value.entries[i].value == entry)
    && Member(entry, "shell_type") == Some(Str("unified_exec"))
    && Member(entry, "apply_patch_tool_type") == Some(Str("freeform"))
    && Member(entry, "experimental_supported_tools") == Some(Arr([]))
  }

  /** The projection is a secure file whose one entry for the model is the live one without its patch tool. */
  ghost predicate Projected(h: Host, home: string, model: string, path: string, entry: Json) {
    var file := h.projection(home, path);
    && h.resolve(path) == path && file.secure && file.entries.Some? && entry.Obj?
    && exists i :: Only(file.entries.value, model, i) &&
                   CJ.PythonEqual(file.entries.value[i].value, Obj(Put(entry.fields, "apply_patch_tool_type", Null)))
  }

  lemma SnapshotIsOperative(h: Host, home: string, model: string)
    requires CatalogSnapshot(h, home, model).Success?
    ensures Operative(h, home, model, CatalogSnapshot(h, home, model).value.entry)
  {
    SelectedIs(h.catalog(home).value.entries, model);
  }

  lemma ProjectionIsProjected(d: Digests, h: Host, home: string, model: string, path: string, entry: Json)
    requires CatalogProjection(d, h, home, model, path, entry).Success? && entry.Obj?
    ensures var (candidate, sha) := CatalogProjection(d, h, home, model, path, entry).value;
            && candidate == h.absolute(path) && Projected(h, home, model, candidate, entry)
            && sha == d.file(h.projection(home, candidate).raw)
  {
    SelectedIs(h.projection(home, h.absolute(path)).entries.value, model);
  }

  lemma LiveEntryIs(d: Digests, h: Host, home: string, model: string, p: Profile, projection: Option<string>)
    returns (entry: Json)
    requires LiveInputs(d, h, home, model, p, projection).Success?
    ensures Operative(h, home, model, entry)
    ensures Sha(d, entry) == LiveInputs(d, h, home, model, p, projection).value.entrySha256
    ensures CatalogSnapshot(h, home, model).Success? && CatalogSnapshot(h, home, model).value.entry == entry
  {
    SnapshotIsOperative(h, home, model);
    entry := CatalogSnapshot(h, home, model).value.entry;
  }

  lemma LiveProjectionIs(d: Digests, h: Host, home: string, model: string, p: Profile, path: string, entry: Json)
    requires LiveInputs(d, h, home, model, p, Some(path)).Success? && entry.Obj?
    requires CatalogSnapshot(h, home, model).Success? && CatalogSnapshot(h, home, model).value.entry == entry
    ensures var live := LiveInputs(d, h, home, model, p, Some(path)).value;
            && live.startup.Some? && Projected(h, home, model, live.startup.value, entry)
            && live.projectionSha256 == Some(d.file(h.projection(home, live.startup.value).raw))
  {
    ProjectionIsProjected(d, h, home, model, path, entry);
  }

  /** What a body says of the model: its catalog entry, and the projection if it starts from one. */
  ghost predicate Selects(d: Digests, h: Host, b: Body) {
    exists entry :: Operative(h, b.codexHome, b.requestedModel, entry) && Sha(d, entry) == b.modelEntrySha256
                    && (b.startupConfig.Some? ==>
                          && Projected(h, b.codexHome, b.requestedModel, b.startupConfig.value, entry)
                          && b.catalogProjectionSha256 ==
                             Some(d.file(h.projection(b.codexHome, b.startupConfig.value).raw)))
  }

  /** Every accepted binding, and every clean proof, rests on the live entry of its model. */
  lemma BindingSelects(d: Digests, h: Host, b: Body)
    requires HostAgrees(d, h, b)
    ensures Selects(d, h, b)
  {
    var live, current := CurrentFacts(d, h, b);
    var home := h.resolve(b.codexHome);
    var entry := LiveEntryIs(d, h, home, b.requestedModel, current.toolProfile, b.startupConfig);
    if b.startupConfig.Some? {
      LiveProjectionIs(d, h, home, b.requestedModel, current.toolProfile, b.startupConfig.value, entry);
    }
    AgreesOnEntry(b, current);
  }

  /** What `require_capture_binding` lets pass. */
  lemma AcceptedBindingMeans(d: Digests, h: Host, b: Binding)
    requires BindingOk(d, h, b)
    ensures Restrains(h, b.body) && Selects(d, h, b.body)
  {
    BindingRestrains(d, h, b.body);
    BindingSelects(d, h, b.body);
  }

  lemma AgreesOnEntry(a: Body, b: Body)
    requires SameCausal(a, b)
    ensures a.codexHome == b.codexHome && a.modelEntrySha256 == b.modelEntrySha256 && a.startupConfig == b.startupConfig
    ensures a.catalogProjectionSha256 == b.catalogProjectionSha256
  {
    assert SameField(CodexHome, a, b) && SameField(ModelEntrySha256, a, b);
    assert SameField(StartupConfig, a, b) && SameField(CatalogProjectionSha256, a, b);
  }

  // ---------- the captured process ----------

  /** The thread ran without network, approvals or another model; its sandbox was writable only for the patch tool. */
  ghost predicate ThreadConfined(v: Json, b: Body) {
    && At(v, ["model"]) == Some(Str(b.requestedModel)) && At(v, ["approvalPolicy"]) == Some(Str("never"))
    && At(v, ["networkAccess"]) == Some(Bool(false)) && At(v, ["allowProviderModelFallback"]) == Some(Bool(false))
    && At(v, ["sandbox"]) == Some(Str(if ApplyPatch in b.requestedTools then "workspaceWrite" else "readOnly"))
    && At(v, ["lockdown_config_sha256"]) == Some(Str(b.lockdownConfigSha256))
  }

  lemma EightKeysDiffer(fields: seq<Field>)
    requires |fields| == 8 && |fields[0].key| == 5 && |fields[1].key| == 13 && |fields[2].key| == 14
    requires |fields[3].key| == 13 && |fields[4].key| == 7 && |fields[5].key| == 26 && |fields[6].key| == 12
    requires |fields[7].key| == 22 && fields[1].key[0] != fields[3].key[0]
    ensures KeysDiffer(fields)
  {
  }

  /** The fields that the expected thread is made of. */
  lemma ThreadFields(b: Body, p: Profile) returns (fields: seq<Field>)
    ensures ExpectedThread(b, p) == Dict(fields) && ValuesWellKeyed(fields) && KeysDiffer(fields) && |fields| == 8
    ensures fields[0] == Field("model", Str(b.requestedModel)) && fields[2] == Field("approvalPolicy", Str("never"))
    ensures fields[3] == Field("networkAccess", Bool(false))
    ensures fields[4] == Field("sandbox", Str(if Mutable(p) then "workspaceWrite" else "readOnly"))
    ensures fields[5] == Field("allowProviderModelFallback", Bool(false))
    ensures fields[7] == Field("lockdown_config_sha256", Str(b.lockdownConfigSha256))
  {
    fields :=
      [Field("model", Str(b.requestedModel)), Field("modelProvider", Str("cwo-loopback-probe")),
       Field("approvalPolicy", Str("never")), Field("networkAccess", Bool(false)),
       Field("sandbox", Str(if Mutable(p) then "workspaceWrite" else "readOnly")),
       Field("allowProviderModelFallback", Bool(false)), Field("dynamicTools", Arr([])),
       Field("lockdown_config_sha256", Str(b.lockdownConfigSha256))];
    assert "modelProvider"[0] == 'm' && "networkAccess"[0] == 'n';
    EightKeysDiffer(fields);
  }

  lemma ThreadMembers(b: Body, p: Profile)
    ensures var v := ExpectedThread(b, p);
            && Member(v, "model") == Some(Str(b.requestedModel)) && Member(v, "approvalPolicy") == Some(Str("never"))
            && Member(v, "networkAccess") == Some(Bool(false))
            && Member(v, "sandbox") == Some(Str(if Mutable(p) then "workspaceWrite" else "readOnly"))
            && Member(v, "allowProviderModelFallback") == Some(Bool(false))
            && Member(v, "lockdown_config_sha256") == Some(Str(b.lockdownConfigSha256))
  {
    var fields := ThreadFields(b, p);
    DistinctLookup(fields, 0);
    DistinctLookup(fields, 2);
    DistinctLookup(fields, 3);
    DistinctLookup(fields, 4);
    DistinctLookup(fields, 5);
    DistinctLookup(fields, 7);
  }

  lemma {:induction false} CoversMember(values: seq<Field>, expected: seq<Field>, key: string)
    requires CJ.Covers(values, expected) && Get(expected, key).Some?
    ensures Get(values, key).Some? && CJ.SameJson(Get(values, key).value, Get(expected, key).value)
  {
    if expected[0].key != key {
      CoversMember(values, expected[1..], key);
    }
  }

  /** A scalar of the expected object is in the object that compares as the same. */
  lemma ScalarIsKept(a: Json, b: Json, key: string)
    requires CJ.SameJson(a, b) && Member(b, key).Some? && Scalar(Member(b, key).value)
    ensures At(a, [key]) == Member(b, key)
  {
    CoversMember(a.fields, b.fields, key);
    AtOne(a, key);
  }

  /** Every accepted process ran its thread like that, and is the one the binding was captured for. */
  lemma ProcessIsConfined(d: Digests, v: Process, b: Binding, requestSha: string)
    requires ProcessOk(d, v, b, requestSha)
    ensures ThreadConfined(v.effectiveThread, b.body)
    ensures v.executable == b.body.codexBinary && v.codexHome == b.body.codexHome && v.requestSha256 == requestSha
    ensures v.bindingSeal == b.seal && v.pid > 0 && Text.Strip(v.threadId) != ""
    ensures v.endpoints.Some? && EI.Accepts(v.endpoints.value.before, v.threadId, v.pid, None, d.isSha)
    ensures forall epoch :: Member(v.endpoints.value.before, "connection_epoch_sha256") == Some(Str(epoch)) ==>
              EI.Accepts(v.endpoints.value.after, v.threadId, v.pid, Some(epoch), d.isSha)
  {
    var p := NormalizedTools(b.body.requestedTools).value;
    var expected := ExpectedThread(b.body, p);
    ThreadMembers(b.body, p);
    PatchingIffMutable(p);
    assert ApplyPatch in b.body.requestedTools <==> ApplyPatch in multiset(b.body.requestedTools);
    assert ApplyPatch in ProfileTools(p) <==> ApplyPatch in multiset(ProfileTools(p));
    ScalarIsKept(v.effectiveThread, expected, "model");
    ScalarIsKept(v.effectiveThread, expected, "approvalPolicy");
    ScalarIsKept(v.effectiveThread, expected, "networkAccess");
    ScalarIsKept(v.effectiveThread, expected, "sandbox");
    ScalarIsKept(v.effectiveThread, expected, "allowProviderModelFallback");
    ScalarIsKept(v.effectiveThread, expected, "lockdown_config_sha256");
  }

  // ---------- proofs ----------

  /** A clean proof and the binding in it both restrain the host as it is now. */
  lemma CleanProofRestrains(d: Digests, h: Host, v: Proof, model: string, tools: seq<Tool>)
    requires SelfConsistent(d, v, model, tools) && HostAgrees(d, h, v.body.claims)
    ensures Restrains(h, v.body.claims) && Restrains(h, v.body.capture.body)
  {
    BindingRestrains(d, h, v.body.claims);
    CausalSymmetric(v.body.claims, v.body.capture.body);
    RestrainsAlike(h, v.body.capture.body, v.body.claims);
  }

  /** A clean proof is sealed, verified, and of the model and tools asked for. */
  lemma CleanProofIsOf(d: Digests, v: Proof, model: string, tools: seq<Tool>)
    requires SelfConsistent(d, v, model, tools)
    ensures v.body.verified && v.body.proofType == PROOF_TYPE && v.body.source == SOURCE && v.seal == d.proof(v.body)
    ensures v.body.observedModel == v.body.claims.requestedModel == model
    ensures multiset(v.body.observedTools) == multiset(tools) && v.body.observedTools == v.body.claims.requestedTools
  {
    FaultlessIsOf(d, v, model, NormalizedTools(tools));
  }

  ghost predicate HashesFilledIn(d: Digests, v: Proof) {
    var c := v.body.claims;
    && d.isSha(v.seal) && d.isSha(v.body.requestSha256) && d.isSha(v.body.definitionsSha256)
    && d.isSha(c.codexBinarySha256) && d.isSha(c.modelEntrySha256) && d.isSha(c.lockdownConfigSha256)
    && d.isSha(c.userConfigSha256) && d.isSha(c.modelCatalogSha256)
    && c.lockdownConfigSha256 == Sha(d, c.lockdownConfig)
    && (ApplyPatch !in c.requestedTools ==> c.catalogProjectionSha256.Some? && d.isSha(c.catalogProjectionSha256.value))
  }

  ghost predicate TextsFilledIn(c: Body) {
    && Text.Strip(c.codexBinary) != "" && Text.Strip(c.codexHome) != "" && Text.Strip(c.codexVersion) != ""
    && Text.Strip(c.requestedModel) != ""
  }

  /** Its hashes look like hashes, and its texts say something. */
  lemma CleanProofIsFilledIn(d: Digests, v: Proof, model: string, tools: seq<Tool>)
    requires SelfConsistent(d, v, model, tools)
    ensures HashesFilledIn(d, v) && TextsFilledIn(v.body.claims)
  {
    FaultlessHashes(d, v, model, NormalizedTools(tools));
    FaultlessTexts(d, v, model, NormalizedTools(tools));
  }

  lemma FaultlessHashes(d: Digests, v: Proof, model: string, p: Option<Profile>)
    requires ShapeOk(d, v, model, p)
    ensures HashesFilledIn(d, v)
  {
    assert !Faulty(d, v, model, p, HashInvalid) && !Faulty(d, v, model, p, ProjectionHashInvalid);
    assert !Faulty(d, v, model, p, LockdownHashMismatch) && !Faulty(d, v, model, p, ToolsMismatch);
    assert !Faulty(d, v, model, p, UnsupportedTools);
    PatchingIffMutable(p.value);
  }

  lemma FaultlessTexts(d: Digests, v: Proof, model: string, p: Option<Profile>)
    requires ShapeOk(d, v, model, p)
    ensures TextsFilledIn(v.body.claims)
  {
    assert !Faulty(d, v, model, p, BlankBinary) && !Faulty(d, v, model, p, BlankHome);
    assert !Faulty(d, v, model, p, BlankVersion) && !Faulty(d, v, model, p, BlankRequestedModel);
  }

  lemma FaultlessIsOf(d: Digests, v: Proof, model: string, p: Option<Profile>)
    requires ShapeOk(d, v, model, p)
    ensures v.body.verified && v.body.proofType == PROOF_TYPE && v.body.source == SOURCE && v.seal == d.proof(v.body)
    ensures v.body.observedModel == v.body.claims.requestedModel == model
    ensures p.Some? && v.body.observedTools == v.body.claims.requestedTools == ProfileTools(p.value)
  {
    assert !Faulty(d, v, model, p, TypeInvalid) && !Faulty(d, v, model, p, SourceInvalid);
    assert !Faulty(d, v, model, p, NotVerified) && !Faulty(d, v, model, p, SealMismatch);
    assert !Faulty(d, v, model, p, ModelMismatch) && !Faulty(d, v, model, p, ToolsMismatch);
    assert !Faulty(d, v, model, p, UnsupportedTools);
  }

  /** The process in a clean proof ran the claimed binary on the claimed home, confined. */
  lemma CleanProofIsConfined(d: Digests, v: Proof, model: string, tools: seq<Tool>)
    requires SelfConsistent(d, v, model, tools)
    ensures ThreadConfined(v.body.process.effectiveThread, v.body.capture.body)
    ensures v.body.process.executable == v.body.claims.codexBinary
    ensures v.body.process.codexHome == v.body.claims.codexHome
    ensures v.body.process.requestSha256 == v.body.requestSha256 && v.body.process.bindingSeal == v.body.capture.seal
  {
    ProcessIsConfined(d, v.body.process, v.body.capture, v.body.requestSha256);
    SameBinary(v.body.claims, v.body.capture.body);
  }

  lemma SameBinary(a: Body, b: Body)
    requires SameCausal(a, b)
    ensures a.codexBinary == b.codexBinary && a.codexHome == b.codexHome
  {
    assert SameField(CodexBinary, a, b) && SameField(CodexHome, a, b);
  }

  /** A proof is built only for a request that offers exactly the tools asked for, of the model asked for. */
  lemma BuildableMeans(d: Digests, h: Host, c: Captured, codexHome: string, model: string, tools: seq<Tool>,
                       projection: Option<string>, b: Binding, process: Process)
    requires Buildable(d, h, c, codexHome, model, tools, projection, b, process)
    ensures c.surface.Some? && multiset(c.surface.value.names) == multiset(tools)
    ensures Member(c.request, "model") == Some(Str(model)) && b.body.requestedModel == model
    ensures b.body.codexHome == h.resolve(codexHome) && multiset(b.body.requestedTools) == multiset(tools)
    ensures b.body.startupConfig == if projection.None? then None else Some(h.absolute(projection.value))
    ensures process.requestSha256 == Sha(d, c.request) && Restrains(h, b.body)
  {
    BindingRestrains(d, h, b.body);
    ProcessIsConfined(d, process, b, Sha(d, c.request));
  }
}
