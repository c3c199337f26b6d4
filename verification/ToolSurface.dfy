/**
 Tool-surface proofs of `codex_tool_surface` (version 5): the causal host inputs frozen before a capture, the proof
 sealed over a captured request, and the validator that accepts it again later.
 */
module ToolSurface {
  import opened Wrappers
  import opened Json
  import CJ = CanonicalJson
  import EI = EndpointInventory
  import Sorting
  import Text

  /** A JSON value whose objects have each key once, as every Python dict does. */
  type Value = v: Json | CJ.WellKeyed(v) witness Null

  datatype Tool =
    | ApplyPatch | ExecCommand | ListResourceTemplates | ListResources | ReadResource | WriteStdin
    | OtherTool(name: string)

  datatype Profile = MutatingV1 | ReadOnlyV1 | MutatingCoreResourcesV2 | ReadOnlyCoreResourcesV2

  /** The tools of a profile, in name order. */
  function ProfileTools(p: Profile): seq<Tool> {
    match p
    case MutatingV1 => [ApplyPatch, ExecCommand, WriteStdin]
    case ReadOnlyV1 => [ExecCommand, WriteStdin]
    case MutatingCoreResourcesV2 =>
      [ApplyPatch, ExecCommand, ListResourceTemplates, ListResources, ReadResource, WriteStdin]
    case ReadOnlyCoreResourcesV2 => [ExecCommand, ListResourceTemplates, ListResources, ReadResource, WriteStdin]
  }

  predicate Mutable(p: Profile) {
    p.MutatingV1? || p.MutatingCoreResourcesV2?
  }

  predicate SameTools(a: seq<Tool>, b: seq<Tool>) {
    multiset(a) == multiset(b)
  }

  /** `normalized_tools`: the profile whose tools these are, in any order but without repetition. */
  function NormalizedTools(tools: seq<Tool>): (p: Option<Profile>)
    ensures p.Some? ==> SameTools(tools, ProfileTools(p.value))
  {
    if SameTools(tools, ProfileTools(MutatingV1)) then Some(MutatingV1)
    else if SameTools(tools, ProfileTools(ReadOnlyV1)) then Some(ReadOnlyV1)
    else if SameTools(tools, ProfileTools(MutatingCoreResourcesV2)) then Some(MutatingCoreResourcesV2)
    else if SameTools(tools, ProfileTools(ReadOnlyCoreResourcesV2)) then Some(ReadOnlyCoreResourcesV2)
    else None
  }

  // ---------- the host ----------

  datatype Entry = Entry(slug: string, value: Value)

  /** The model catalog as read once: its bytes and its entries. */
  datatype Catalog = Catalog(path: string, raw: string, entries: seq<Entry>)

  /** The user configuration: its bytes, and the names under `mcp_servers`; None when that is no table. */
  datatype Config = Config(raw: string, servers: Option<seq<string>>)

  /** A projection file: whether path, owner and mode are in order, its bytes, and its entries; None if unreadable. */
  datatype Projection = Projection(secure: bool, raw: string, entries: Option<seq<Entry>>)

  datatype Host = Host(
    binary: Option<string>, version: string -> Option<string>, bytes: string -> Option<string>,
    resolve: string -> string, absolute: string -> string,
    config: string -> Option<Config>, catalog: string -> Option<Catalog>, projection: (string, string) -> Projection)

  /** Hash functions, and the shape of what they produce. */
  datatype Digests = Digests(file: string -> string, json: Json -> string, body: Body -> string,
                             proof: ProofBody -> string, isSha: string -> bool)

  /** `canonical_sha256` of a JSON value: a hash of its canonical text. */
  function Sha(d: Digests, v: Json): string {
    d.json(CJ.Canonical(v))
  }

  // ---------- records ----------

  /** The frozen host inputs. All but the two whole-file hashes are causal. */
  datatype Body = Body(
    codexBinary: string, codexBinarySha256: string, codexVersion: string, codexHome: string,
    requestedModel: string, requestedTools: seq<Tool>, modelEntrySha256: string,
    lockdownConfig: Value, lockdownConfigSha256: string, startupConfig: Option<string>,
    catalogProjectionSha256: Option<string>, toolProfile: Profile, effectPolicy: Value,
    userConfigSha256: string, modelCatalogSha256: string)

  datatype Binding = Binding(body: Body, seal: string)

  datatype Observations = Observations(before: Json, after: Json)

  datatype Process = Process(bindingSeal: string, requestSha256: string, executable: string, codexHome: string,
                             pid: int, threadId: string, effectiveThread: Json, endpoints: Option<Observations>)

  datatype Transport = Direct | NamespacedExec

  /** What a captured request offers: the tool names, their definitions, and how they are called. */
  datatype Surface = Surface(names: seq<Tool>, definitions: Json, transport: Transport)

  datatype Captured = Captured(request: Json, surface: Option<Surface>)

  /** A proof repeats the frozen inputs as `claims`, beside the binding they came from. */
  datatype ProofBody = ProofBody(
    proofType: string, source: string, claims: Body, observedModel: string, observedTools: seq<Tool>,
    transport: Transport, definitionsSha256: string, requestSha256: string, verified: bool,
    capture: Binding, process: Process)

  datatype Proof = Proof(body: ProofBody, seal: string)

  datatype CausalField =
    | CodexBinary | CodexBinarySha256 | CodexVersion | CodexHome | RequestedModel | RequestedTools
    | ModelEntrySha256 | LockdownConfig | LockdownConfigSha256 | StartupConfig | CatalogProjectionSha256
    | ToolProfile | EffectPolicyField

  const CAUSAL_FIELDS: seq<CausalField> :=
    [CodexBinary, CodexBinarySha256, CodexVersion, CodexHome, RequestedModel, RequestedTools, ModelEntrySha256,
     LockdownConfig, LockdownConfigSha256, StartupConfig, CatalogProjectionSha256, ToolProfile, EffectPolicyField]

  /** Why the host cannot say what it would freeze now. */
  datatype HostError =
    | ToolsUnsupported | BinaryUnavailable | VersionUnavailable | UserConfigInvalid | CatalogInvalid
    | ModelEntryInvalid | ModelToolMetadataInvalid | ReadOnlyCatalogRequired | CatalogOverrideForbidden
    | McpServersInvalid | ProjectionPathInvalid | ProjectionInvalid

  datatype Error =
    | OfHost(why: HostError)
    | BindingInvalid | BindingDrift(field: CausalField) | ProcessBindingInvalid | ThreadBindingInvalid
    | ObservationsRequired | EndpointsNotProvenAbsent
    | CaptureInvalid | CaptureModelMismatch | CaptureToolsMismatch | CaptureRequestMismatch
    | Shape(shape: ShapeError) | ClaimsBindingMismatch
    | ProjectionDrift | BinaryPathDrift | BinaryDrift | VersionDrift | ModelEntryDrift | LockdownDrift
    | LockdownHashDrift

  // ---------- what the host says now ----------

  /** `_selected_model`: the one entry with this slug. */
  function Selected(entries: seq<Entry>, model: string): Option<Value> {
    if entries == [] then None
    else if entries[0].slug != model then Selected(entries[1..], model)
    else if exists e :: e in entries[1..] && e.slug == model then None
    else Some(entries[0].value)
  }

  predicate ToolMetadataOk(entry: Json) {
    && Member(entry, "shell_type") == Some(Str("unified_exec"))
    && Member(entry, "apply_patch_tool_type") == Some(Str("freeform"))
    && Member(entry, "experimental_supported_tools") == Some(Arr([]))
  }

  datatype Snapshot = Snapshot(path: string, raw: string, entry: Value)

  /** `_catalog_snapshot` */
  function CatalogSnapshot(h: Host, home: string, model: string): Result<Snapshot, HostError> {
    var catalog := h.catalog(home);
    if Text.Strip(model) == "" then Failure(ModelEntryInvalid)
    else if catalog.None? then Failure(CatalogInvalid)
    else
      var entry := Selected(catalog.value.entries, model);
      if entry.None? then Failure(ModelEntryInvalid)
      else if !ToolMetadataOk(entry.value) then Failure(ModelToolMetadataInvalid)
      else Success(Snapshot(catalog.value.path, catalog.value.raw, entry.value))
  }

  /** The catalog entry a read-only projection must hold: the live one without its patch tool. */
  function WithoutPatchTool(entry: Json): Json {
    if entry.Obj? then Obj(Put(entry.fields, "apply_patch_tool_type", Null)) else entry
  }

  /** `_catalog_projection`: the resolved path and the hash of the projection file. */
  function CatalogProjection(d: Digests, h: Host, home: string, model: string, path: string, entry: Json)
    : Result<(string, string), HostError>
  {
    var candidate := h.absolute(path);
    var file := h.projection(home, candidate);
    if h.resolve(candidate) != candidate || !file.secure then Failure(ProjectionPathInvalid)
    else if file.entries.None? then Failure(ProjectionInvalid)
    else
      var projected := Selected(file.entries.value, model);
      if projected.None? then Failure(ModelEntryInvalid)
      else if !CJ.PythonEqual(projected.value, WithoutPatchTool(entry)) then Failure(ProjectionInvalid)
      else Success((candidate, d.file(file.raw)))
  }

  /** A dict display or comprehension: later entries of a key replace earlier ones. */
  function DictOf(fields: seq<Field>): seq<Field> {
    if fields == [] then []
    else Put(DictOf(fields[..|fields| - 1]), fields[|fields| - 1].key, fields[|fields| - 1].value)
  }

  function Dict(fields: seq<Field>): Json {
    Obj(DictOf(fields))
  }

  ghost predicate ValuesWellKeyed(fields: seq<Field>) {
    forall f :: f in fields ==> CJ.WellKeyed(f.value)
  }

  function DictValue(fields: seq<Field>): Value
    requires ValuesWellKeyed(fields)
  {
    DictIsWellKeyed(fields);
    Dict(fields)
  }

  function Disabled(): Value {
    DictValue([Field("enabled", Bool(false))])
  }

  /** Every name mapped to the one value. */
  function Each(names: seq<string>, value: Value): Value {
    DictValue(seq(|names|, i requires 0 <= i < |names| => Field(names[i], value)))
  }

  const DISABLED_FEATURES: seq<string> :=
    ["apps", "current_time_reminder", "default_mode_request_user_input", "deferred_executor", "goals", "hooks",
     "image_generation", "multi_agent", "multi_agent_v2", "plugins", "recommended_plugins", "remote_plugin",
     "request_permissions_tool", "rollout_budget", "skill_search", "sleep_tool", "token_budget", "tool_suggest",
     "unbounded_connection_retries", "view_image"]

  /** The lockdown configuration for a catalog and the user's servers, every optional tool source switched off. */
  function LockdownFor(catalog: string, servers: seq<string>): Value {
    DictValue([Field("model_catalog_json", Str(catalog)), Field("web_search", Str("disabled")),
               Field("tools", DisabledTools()), Field("agents", Disabled()), Field("features", DisabledFeatures()),
               Field("mcp_servers", DisabledServers(servers))])
  }

  function DisabledTools(): Value {
    Each(["experimental_request_user_input", "update_plan"], Disabled())
  }

  function DisabledFeatures(): Value {
    Each(DISABLED_FEATURES, Bool(false))
  }

  function DisabledServers(servers: seq<string>): Value {
    Each(Sorting.Sort(Text.LexLe, servers), Disabled())
  }

  /** The catalog a thread starts from: the live one, or for a read-only profile its validated projection. */
  function StartCatalog(d: Digests, h: Host, home: string, model: string, p: Profile, projection: Option<string>,
                        snapshot: Snapshot): Result<string, HostError>
  {
    if !Mutable(p) && projection.None? then Failure(ReadOnlyCatalogRequired)
    else if Mutable(p) && projection.Some? then Failure(CatalogOverrideForbidden)
    else if projection.None? then Success(snapshot.path)
    else
      var projected := CatalogProjection(d, h, home, model, projection.value, snapshot.entry);
      if projected.Failure? then Failure(projected.error) else Success(projected.value.0)
  }

  function WithServers(catalog: Result<string, HostError>, servers: Option<seq<string>>): Result<Value, HostError> {
    if catalog.Failure? then Failure(catalog.error)
    else if servers.None? || exists name :: name in servers.value && Text.Strip(name) == ""
    then Failure(McpServersInvalid)
    else Success(LockdownFor(catalog.value, servers.value))
  }

  /** `_lockdown_from_snapshot` */
  function Lockdown(d: Digests, h: Host, home: string, model: string, p: Profile, projection: Option<string>,
                    config: Config, snapshot: Snapshot): Result<Value, HostError>
  {
    WithServers(StartCatalog(d, h, home, model, p, projection, snapshot), config.servers)
  }

  function EffectPolicy(p: Profile): Value {
    DictValue([Field("sandbox", Str(if Mutable(p) then "workspaceWrite" else "readOnly")),
               Field("network_access", Bool(false)),
          Field("approval_policy", Str("never")), Field("dynamic_tools", Arr([])), Field("mcp_endpoints", Str("none"))])
  }

  /** The host inputs that depend on configuration and catalog. */
  datatype Live = Live(entrySha256: string, lockdown: Value, startup: Option<string>, projectionSha256: Option<string>,
                       configSha256: string, catalogSha256: string)

  function LiveInputs(d: Digests, h: Host, home: string, model: string, p: Profile, projection: Option<string>)
    : Result<Live, HostError>
  {
    var config := h.config(home);
    if config.None? then Failure(UserConfigInvalid)
    else
      var snapshot := CatalogSnapshot(h, home, model);
      if snapshot.Failure? then Failure(snapshot.error)
      else
        var lockdown := Lockdown(d, h, home, model, p, projection, config.value, snapshot.value);
        if lockdown.Failure? then Failure(lockdown.error)
        else if projection.None? then
          Success(Live(Sha(d, snapshot.value.entry), lockdown.value, None, None, d.file(config.value.raw),
                       d.file(snapshot.value.raw)))
        else
          var projected := CatalogProjection(d, h, home, model, projection.value, snapshot.value.entry);
          if projected.Failure? then Failure(projected.error)
          else Success(Live(Sha(d, snapshot.value.entry), lockdown.value, Some(projected.value.0),
                            Some(projected.value.1),
                       d.file(config.value.raw), d.file(snapshot.value.raw)))
  }

  /** `prepare_capture_binding`, without the seal: what the host says now. */
  function Current(d: Digests, h: Host, codexHome: string, model: string, tools: seq<Tool>, projection: Option<string>)
    : Result<Body, HostError>
  {
    var home := h.resolve(codexHome);
    var profile := NormalizedTools(tools);
    if profile.None? then Failure(ToolsUnsupported)
    else if h.binary.None? then Failure(BinaryUnavailable)
    else
      var live := LiveInputs(d, h, home, model, profile.value, projection);
      if live.Failure? then Failure(live.error)
      else CurrentBody(d, h, home, model, profile.value, live.value)
  }

  function CurrentBody(d: Digests, h: Host, home: string, model: string, p: Profile, live: Live)
    : Result<Body, HostError>
    requires h.binary.Some?
  {
    var binary := h.binary.value;
    if h.bytes(binary).None? then Failure(BinaryUnavailable)
    else if h.version(binary).None? then Failure(VersionUnavailable)
    else Success(Body(binary, d.file(h.bytes(binary).value), h.version(binary).value, home, model, ProfileTools(p),
                 live.entrySha256, live.lockdown, Sha(d, live.lockdown), live.startup, live.projectionSha256,
                 p, EffectPolicy(p), live.configSha256, live.catalogSha256))
  }

  // ---------- dicts have each key once ----------

  lemma {:induction false} PutKeepsKeysDistinct(fields: seq<Field>, key: string, value: Json, other: string)
    requires CJ.DistinctKeys(fields)
    ensures CJ.DistinctKeys(Put(fields, key, value))
    ensures Get(Put(fields, key, value), other) == if other == key then Some(value) else Get(fields, other)
    ensures forall f :: f in Put(fields, key, value) ==> f in fields || f == Field(key, value)
  {
    if fields != [] {
      if fields[0].key == key {
        assert ([Field(key, value)] + fields[1..])[1..] == fields[1..];
      } else {
        PutKeepsKeysDistinct(fields[1..], key, value, other);
        PutKeepsKeysDistinct(fields[1..], key, value, fields[0].key);
        var put := [fields[0]] + Put(fields[1..], key, value);
        assert put[1..] == Put(fields[1..], key, value);
      }
    }
  }

  lemma {:induction false} DictIsWellKeyed(fields: seq<Field>)
    requires ValuesWellKeyed(fields)
    ensures CJ.DistinctKeys(DictOf(fields)) && CJ.WellKeyed(Dict(fields))
  {
    if fields != [] {
      var n := |fields| - 1;
      assert fields[n] in fields;
      DictIsWellKeyed(fields[..n]);
      PutKeepsKeysDistinct(DictOf(fields[..n]), fields[n].key, fields[n].value, "");
    }
  }

  // ---------- bindings ----------

  /** Whether one causal field is the same; JSON payloads are compared without coercion. */
  predicate SameField(f: CausalField, a: Body, b: Body) {
    match f
    case CodexBinary => a.codexBinary == b.codexBinary
    case CodexBinarySha256 => a.codexBinarySha256 == b.codexBinarySha256
    case CodexVersion => a.codexVersion == b.codexVersion
    case CodexHome => a.codexHome == b.codexHome
    case RequestedModel => a.requestedModel == b.requestedModel
    case RequestedTools => a.requestedTools == b.requestedTools
    case ModelEntrySha256 => a.modelEntrySha256 == b.modelEntrySha256
    case LockdownConfig => CJ.SameJson(a.lockdownConfig, b.lockdownConfig)
    case LockdownConfigSha256 => a.lockdownConfigSha256 == b.lockdownConfigSha256
    case StartupConfig => a.startupConfig == b.startupConfig
    case CatalogProjectionSha256 => a.catalogProjectionSha256 == b.catalogProjectionSha256
    case ToolProfile => a.toolProfile == b.toolProfile
    case EffectPolicyField => CJ.SameJson(a.effectPolicy, b.effectPolicy)
  }

  predicate SameCausal(a: Body, b: Body) {
    forall f: CausalField :: SameField(f, a, b)
  }

  predicate WholeFileHashesOk(d: Digests, b: Body) {
    d.isSha(b.userConfigSha256) && d.isSha(b.modelCatalogSha256)
  }

  /** The seals of a binding hold. */
  predicate Sealed(d: Digests, b: Binding) {
    d.body(b.body) == b.seal && Sha(d, b.body.lockdownConfig) == b.body.lockdownConfigSha256
  }

  /** What the host says now for the request that `b` was frozen for. */
  function CurrentFor(d: Digests, h: Host, b: Body): Result<Body, HostError> {
    Current(d, h, b.codexHome, b.requestedModel, b.requestedTools, b.startupConfig)
  }

  /** A sealed binding whose causal fields are what the host says now. */
  predicate BindingOk(d: Digests, h: Host, b: Binding) {
    && Sealed(d, b) && WholeFileHashesOk(d, b.body)
    && CurrentFor(d, h, b.body).Success? && SameCausal(b.body, CurrentFor(d, h, b.body).value)
  }

  /** `require_capture_binding`: the causal fields are compared one by one, and the first that drifted is reported. */
  method RequireCaptureBinding(d: Digests, h: Host, b: Binding) returns (error: Option<Error>)
    ensures error.None? <==> BindingOk(d, h, b)
    ensures error.Some? && error.value.BindingDrift? ==>
            CurrentFor(d, h, b.body).Success? && DriftsAt(error.value.field, b.body, CurrentFor(d, h, b.body).value)
  {
    error := CompareBinding(d, b, CurrentFor(d, h, b.body));
  }

  /** The field differs, and it is the first to differ. */
  ghost predicate DriftsAt(f: CausalField, a: Body, b: Body) {
    exists i :: 0 <= i < |CAUSAL_FIELDS| && CAUSAL_FIELDS[i] == f && FirstDifference(CAUSAL_FIELDS, i, a, b)
  }

  ghost predicate FirstDifference(fields: seq<CausalField>, i: nat, a: Body, b: Body)
    requires i < |fields|
  {
    !SameField(fields[i], a, b) && forall j :: 0 <= j < i ==> SameField(fields[j], a, b)
  }

  method CompareBinding(d: Digests, b: Binding, current: Result<Body, HostError>) returns (error: Option<Error>)
    ensures error.None? <==>
            Sealed(d, b) && WholeFileHashesOk(d, b.body) && current.Success? && SameCausal(b.body, current.value)
    ensures error.Some? && error.value.BindingDrift? ==>
            current.Success? && DriftsAt(error.value.field, b.body, current.value)
  {
    if !Sealed(d, b) {
      return Some(BindingInvalid);
    }
    if current.Failure? {
      return Some(OfHost(current.error));
    }
    var drift := FirstDrift(CAUSAL_FIELDS, b.body, current.value);
    if drift.Some? {
      return Some(BindingDrift(CAUSAL_FIELDS[drift.value]));
    }
    EveryFieldIsListed();
    return if WholeFileHashesOk(d, b.body) then None else Some(BindingInvalid);
  }

  /** The place of the first field on which the two disagree. */
  method FirstDrift(fields: seq<CausalField>, a: Body, b: Body) returns (drift: Option<nat>)
    ensures drift.None? ==> forall f :: f in fields ==> SameField(f, a, b)
    ensures drift.Some? ==> drift.value < |fields| && FirstDifference(fields, drift.value, a, b)
  {
    for i := 0 to |fields|
      invariant forall j :: 0 <= j < i ==> SameField(fields[j], a, b)
    {
      if !SameField(fields[i], a, b) {
        return Some(i);
      }
    }
    return None;
  }

  lemma EveryFieldIsListed()
    ensures forall f: CausalField :: f in CAUSAL_FIELDS
  {
    forall f: CausalField ensures f in CAUSAL_FIELDS {
      var place := match f
        case CodexBinary => 0 case CodexBinarySha256 => 1 case CodexVersion => 2 case CodexHome => 3
        case RequestedModel => 4 case RequestedTools => 5 case ModelEntrySha256 => 6 case LockdownConfig => 7
        case LockdownConfigSha256 => 8 case StartupConfig => 9 case CatalogProjectionSha256 => 10
        case ToolProfile => 11 case EffectPolicyField => 12;
      assert CAUSAL_FIELDS[place] == f;
    }
  }

  // ---------- the captured process ----------

  function ExpectedThread(b: Body, p: Profile): Json {
    Dict([Field("model", Str(b.requestedModel)), Field("modelProvider", Str("cwo-loopback-probe")),
          Field("approvalPolicy", Str("never")), Field("networkAccess", Bool(false)),
          Field("sandbox", Str(if Mutable(p) then "workspaceWrite" else "readOnly")),
          Field("allowProviderModelFallback", Bool(false)), Field("dynamicTools", Arr([])),
          Field("lockdown_config_sha256", Str(b.lockdownConfigSha256))])
  }

  predicate Associated(v: Process, b: Binding, requestSha: string) {
    && v.bindingSeal == b.seal && v.requestSha256 == requestSha && v.executable == b.body.codexBinary
    && v.codexHome == b.body.codexHome && v.pid > 0 && Text.Strip(v.threadId) != ""
  }

  function Epoch(inventory: Json): Option<string> {
    var e := Member(inventory, "connection_epoch_sha256");
    if e.Some? && e.value.Str? then Some(e.value.s) else None
  }

  /** Before and after the capture, on one connection, the thread had no endpoints. */
  ghost predicate NoEndpoints(d: Digests, v: Process) {
    && v.endpoints.Some?
    && EI.Accepts(v.endpoints.value.before, v.threadId, v.pid, None, d.isSha)
    && EI.Accepts(v.endpoints.value.after, v.threadId, v.pid, Epoch(v.endpoints.value.before), d.isSha)
  }

  ghost predicate ProcessOk(d: Digests, v: Process, b: Binding, requestSha: string) {
    && Associated(v, b, requestSha)
    && NormalizedTools(b.body.requestedTools).Some?
    && CJ.SameJson(v.effectiveThread, ExpectedThread(b.body, NormalizedTools(b.body.requestedTools).value))
    && NoEndpoints(d, v)
  }

  /** `_require_process_binding` */
  method RequireProcessBinding(d: Digests, v: Process, b: Binding, requestSha: string) returns (error: Option<Error>)
    ensures error.None? <==> ProcessOk(d, v, b, requestSha)
  {
    if !Associated(v, b, requestSha) {
      return Some(ProcessBindingInvalid);
    }
    var profile := NormalizedTools(b.body.requestedTools);
    if profile.None? {
      return Some(OfHost(ToolsUnsupported));
    }
    if !CJ.SameJson(v.effectiveThread, ExpectedThread(b.body, profile.value)) {
      return Some(ThreadBindingInvalid);
    }
    if v.endpoints.None? {
      return Some(ObservationsRequired);
    }
    var before := EI.RequireZeroEndpointInventory(v.endpoints.value.before, v.threadId, v.pid, None, d.isSha);
    if !before.Accepted? {
      return Some(EndpointsNotProvenAbsent);
    }
    var after := EI.RequireZeroEndpointInventory(v.endpoints.value.after, v.threadId, v.pid,
                                                 Epoch(v.endpoints.value.before), d.isSha);
    return if after.Accepted? then None else Some(EndpointsNotProvenAbsent);
  }

  // ---------- the builder ----------

  const PROOF_TYPE := "cwo-codex-config-tool-surface-proof"
  const SOURCE := "loopback-app-server-responses-request"

  /** The captured request offers exactly the tools asked for, of the model asked for. */
  predicate CaptureMatches(c: Captured, model: string, p: Profile) {
    && c.surface.Some? && Member(c.request, "model") == Some(Str(model))
    && SameTools(c.surface.value.names, ProfileTools(p))
  }

  /** The binding was frozen for this very request. */
  predicate BoundFor(h: Host, b: Body, codexHome: string, model: string, p: Profile, projection: Option<string>) {
    && b.codexHome == h.resolve(codexHome) && b.requestedModel == model && b.requestedTools == ProfileTools(p)
    && b.startupConfig == if projection.None? then None else Some(h.absolute(projection.value))
  }

  /** The proof of a capture: the binding's inputs, for the model and profile asked for and observed. */
  function ProofOf(d: Digests, c: Captured, b: Binding, process: Process, model: string, p: Profile): Proof
    requires c.surface.Some?
  {
    var requestSha := Sha(d, c.request);
    var claims := b.body.(requestedModel := model, requestedTools := ProfileTools(p), toolProfile := p);
    var body := ProofBody(PROOF_TYPE, SOURCE, claims, model, ProfileTools(p), c.surface.value.transport,
                          Sha(d, c.surface.value.definitions), requestSha, true, b, process);
    Proof(body, d.proof(body))
  }

  ghost predicate Buildable(d: Digests, h: Host, c: Captured, codexHome: string, model: string, tools: seq<Tool>,
                            projection: Option<string>, b: Binding, process: Process)
  {
    && NormalizedTools(tools).Some? && CaptureMatches(c, model, NormalizedTools(tools).value)
    && BindingOk(d, h, b) && BoundFor(h, b.body, codexHome, model, NormalizedTools(tools).value, projection)
    && ProcessOk(d, process, b, Sha(d, c.request))
  }

  /** `build_surface_proof` */
  method BuildSurfaceProof(d: Digests, h: Host, c: Captured, codexHome: string, model: string, tools: seq<Tool>,
                           projection: Option<string>, b: Binding, process: Process)
    returns (r: Result<Proof, Error>)
    ensures r.Success? <==> Buildable(d, h, c, codexHome, model, tools, projection, b, process)
    ensures r.Success? ==> r.value == ProofOf(d, c, b, process, model, NormalizedTools(tools).value)
  {
    var profile := CheckCapture(c, model, tools);
    if profile.Failure? {
      return Failure(profile.error);
    }
    var invalid := CheckBindings(d, h, c, codexHome, model, profile.value, projection, b, process);
    return if invalid.Some? then Failure(invalid.value) else Success(ProofOf(d, c, b, process, model, profile.value));
  }

  /** What was captured, against what was asked for. */
  method CheckCapture(c: Captured, model: string, tools: seq<Tool>) returns (profile: Result<Profile, Error>)
    ensures profile.Success? <==>
            NormalizedTools(tools).Some? && CaptureMatches(c, model, NormalizedTools(tools).value)
    ensures profile.Success? ==> Some(profile.value) == NormalizedTools(tools)
  {
    if c.surface.None? {
      return Failure(CaptureInvalid);
    }
    var normal := NormalizedTools(tools);
    if normal.None? {
      return Failure(OfHost(ToolsUnsupported));
    }
    if Member(c.request, "model") != Some(Str(model)) {
      return Failure(CaptureModelMismatch);
    }
    if !SameTools(c.surface.value.names, ProfileTools(normal.value)) {
      return Failure(CaptureToolsMismatch);
    }
    return Success(normal.value);
  }

  /** The binding against the host and the request, and the process against the binding. */
  method CheckBindings(d: Digests, h: Host, c: Captured, codexHome: string, model: string, profile: Profile,
                       projection: Option<string>, b: Binding, process: Process)
    returns (error: Option<Error>)
    ensures error.None? <==>
            && BindingOk(d, h, b) && BoundFor(h, b.body, codexHome, model, profile, projection)
            && ProcessOk(d, process, b, Sha(d, c.request))
  {
    error := RequireCaptureBinding(d, h, b);
    if error.Some? {
      return;
    }
    if !BoundFor(h, b.body, codexHome, model, profile, projection) {
      return Some(CaptureRequestMismatch);
    }
    error := RequireProcessBinding(d, process, b, Sha(d, c.request));
  }

  // ---------- the validator: what the proof says by itself ----------

  datatype ShapeError =
    | TypeInvalid | UnsupportedTools | EffectPolicyInvalid | ProfileMismatch | SourceInvalid | NotVerified
    | BlankBinary | BlankHome | BlankVersion | BlankRequestedModel | BlankObservedModel | HashInvalid
    | ModelMismatch | ToolsMismatch
    | StartupInvalid | ProjectionHashInvalid | SealMismatch | LockdownHashMismatch

  predicate Blank(s: string) {
    Text.Strip(s) == ""
  }

  predicate HashesOk(d: Digests, p: ProofBody) {
    && d.isSha(p.claims.codexBinarySha256) && d.isSha(p.claims.userConfigSha256) && d.isSha(p.claims.modelCatalogSha256)
    && d.isSha(p.claims.modelEntrySha256) && d.isSha(p.definitionsSha256) && d.isSha(p.claims.lockdownConfigSha256)
    && d.isSha(p.requestSha256)
  }

  predicate StartupOk(c: Body, profile: Option<Profile>) {
    if profile.Some? && !Mutable(profile.value) then c.startupConfig.Some?
    else c.startupConfig.None? && c.catalogProjectionSha256.None?
  }

  predicate ProjectionHashOk(d: Digests, c: Body, profile: Option<Profile>) {
    profile.Some? && !Mutable(profile.value) ==>
      c.catalogProjectionSha256.Some? && d.isSha(c.catalogProjectionSha256.value)
  }

  /** When each fault of shape is reported, for the model asked for and the profile of the permitted tools. */
  predicate Faulty(d: Digests, v: Proof, model: string, profile: Option<Profile>, e: ShapeError) {
    var p, c := v.body, v.body.claims;
    match e
    case TypeInvalid => p.proofType != PROOF_TYPE
    case UnsupportedTools => profile.None?
    case EffectPolicyInvalid => profile.None? || !CJ.SameJson(c.effectPolicy, EffectPolicy(profile.value))
    case ProfileMismatch => profile != Some(c.toolProfile)
    case SourceInvalid => p.source != SOURCE
    case NotVerified => !p.verified
    case BlankBinary => Blank(c.codexBinary)
    case BlankHome => Blank(c.codexHome)
    case BlankVersion => Blank(c.codexVersion)
    case BlankRequestedModel => Blank(c.requestedModel)
    case BlankObservedModel => Blank(p.observedModel)
    case HashInvalid => !(HashesOk(d, p) && d.isSha(v.seal))
    case ModelMismatch => Blank(model) || c.requestedModel != model || p.observedModel != model
    case ToolsMismatch =>
      var expected := if profile.None? then [] else ProfileTools(profile.value);
      c.requestedTools != expected || p.observedTools != expected
    case StartupInvalid => !StartupOk(c, profile)
    case ProjectionHashInvalid => !ProjectionHashOk(d, c, profile)
    case SealMismatch => d.proof(p) != v.seal
    case LockdownHashMismatch => Sha(d, c.lockdownConfig) != c.lockdownConfigSha256
  }

  ghost predicate ShapeOk(d: Digests, v: Proof, model: string, profile: Option<Profile>) {
    forall e: ShapeError :: !Faulty(d, v, model, profile, e)
  }

  const SHAPE_ERRORS: seq<ShapeError> :=
    [UnsupportedTools, TypeInvalid, EffectPolicyInvalid, ProfileMismatch, SourceInvalid, NotVerified, BlankBinary,
     BlankHome, BlankVersion, BlankRequestedModel, BlankObservedModel, HashInvalid, ModelMismatch, ToolsMismatch,
     StartupInvalid, ProjectionHashInvalid, SealMismatch, LockdownHashMismatch]

  /** Reports every listed fault there is, and no other. */
  method ReportFaults(list: seq<ShapeError>, faulty: ShapeError -> bool) returns (errors: set<Error>)
    ensures forall e :: e in errors <==> e.Shape? && e.shape in list && faulty(e.shape)
  {
    errors := {};
    for i := 0 to |list|
      invariant forall e :: e in errors <==> e.Shape? && e.shape in list[..i] && faulty(e.shape)
    {
      assert list[..i + 1] == list[..i] + [list[i]];
      errors := Report(errors, faulty(list[i]), Shape(list[i]));
    }
    assert list[..|list|] == list;
  }

  lemma EveryFaultIsListed()
    ensures forall e: ShapeError :: e in SHAPE_ERRORS
  {
    forall e: ShapeError ensures e in SHAPE_ERRORS {
      var place := match e
        case UnsupportedTools => 0 case TypeInvalid => 1 case EffectPolicyInvalid => 2 case ProfileMismatch => 3
        case SourceInvalid => 4 case NotVerified => 5 case BlankBinary => 6 case BlankHome => 7 case BlankVersion => 8
        case BlankRequestedModel => 9 case BlankObservedModel => 10 case HashInvalid => 11 case ModelMismatch => 12
        case ToolsMismatch => 13 case StartupInvalid => 14 case ProjectionHashInvalid => 15 case SealMismatch => 16
        case LockdownHashMismatch => 17;
      assert SHAPE_ERRORS[place] == e;
    }
  }

  // ---------- the validator: what the host says ----------

  predicate ClaimsBound(claims: Body, b: Body) {
    SameCausal(claims, b) && claims.userConfigSha256 == b.userConfigSha256
    && claims.modelCatalogSha256 == b.modelCatalogSha256
  }

  /** Capture and process binding of the proof: the first thing wrong with them. */
  method BindingErrors(d: Digests, h: Host, v: ProofBody) returns (errors: set<Error>)
    ensures errors == {} <==>
            && BindingOk(d, h, v.capture) && ProcessOk(d, v.process, v.capture, v.requestSha256)
            && ClaimsBound(v.claims, v.capture.body)
  {
    var invalid := RequireCaptureBinding(d, h, v.capture);
    if invalid.None? {
      invalid := RequireProcessBinding(d, v.process, v.capture, v.requestSha256);
    }
    if invalid.Some? {
      return {invalid.value};
    }
    errors := Report({}, !ClaimsBound(v.claims, v.capture.body), ClaimsBindingMismatch);
  }

  /** The startup projection the live checks use: read-only profiles only. */
  function ProjectionOf(c: Body, p: Profile): Option<string> {
    if Mutable(p) then None else c.startupConfig
  }

  /** The live drift checks on the claims. */
  method DriftErrors(d: Digests, h: Host, c: Body, model: string, p: Profile) returns (errors: set<Error>)
    ensures errors == {} <==> Undrifted(d, h, c, model, p)
  {
    var home := h.resolve(c.codexHome);
    if h.binary.None? {
      return {OfHost(BinaryUnavailable)};
    }
    var snapshot := CatalogSnapshot(h, home, model);
    if snapshot.Failure? {
      return {OfHost(snapshot.error)};
    }
    var live := LiveInputs(d, h, home, model, p, ProjectionOf(c, p));
    if live.Failure? {
      return {OfHost(live.error)};
    }
    errors := LiveErrors(d, h, c, p, live.value);
  }

  method LiveErrors(d: Digests, h: Host, c: Body, p: Profile, live: Live) returns (errors: set<Error>)
    requires h.binary.Some?
    ensures errors == {} <==> AgreesWith(d, h, c, p, live)
  {
    var binary := h.binary.value;
    errors := {};
    errors := Report(errors, ProjectionOf(c, p).Some? && live.projectionSha256 != c.catalogProjectionSha256,
                     ProjectionDrift);
    errors := Report(errors, binary != c.codexBinary, BinaryPathDrift);
    if h.bytes(binary).None? {
      return errors + {OfHost(BinaryUnavailable)};
    }
    errors := Report(errors, d.file(h.bytes(binary).value) != c.codexBinarySha256, BinaryDrift);
    if h.version(binary).None? {
      return errors + {OfHost(VersionUnavailable)};
    }
    errors := Report(errors, h.version(binary).value != c.codexVersion, VersionDrift);
    errors := Report(errors, live.entrySha256 != c.modelEntrySha256, ModelEntryDrift);
    errors := Report(errors, !CJ.SameJson(c.lockdownConfig, live.lockdown), LockdownDrift);
    errors := Report(errors, Sha(d, live.lockdown) != c.lockdownConfigSha256, LockdownHashDrift);
  }

  predicate AgreesWith(d: Digests, h: Host, c: Body, p: Profile, live: Live)
    requires h.binary.Some?
  {
    var binary := h.binary.value;
    && (ProjectionOf(c, p).Some? ==> live.projectionSha256 == c.catalogProjectionSha256)
    && binary == c.codexBinary
    && h.bytes(binary).Some? && d.file(h.bytes(binary).value) == c.codexBinarySha256
    && h.version(binary) == Some(c.codexVersion)
    && live.entrySha256 == c.modelEntrySha256
    && CJ.SameJson(c.lockdownConfig, live.lockdown) && Sha(d, live.lockdown) == c.lockdownConfigSha256
  }

  predicate Undrifted(d: Digests, h: Host, c: Body, model: string, p: Profile) {
    var live := LiveInputs(d, h, h.resolve(c.codexHome), model, p, ProjectionOf(c, p));
    h.binary.Some? && live.Success? && AgreesWith(d, h, c, p, live.value)
  }

  /** What a proof must be by itself, whatever the host. */
  ghost predicate SelfConsistent(d: Digests, v: Proof, model: string, tools: seq<Tool>) {
    && ShapeOk(d, v, model, NormalizedTools(tools))
    && Sealed(d, v.body.capture) && WholeFileHashesOk(d, v.body.capture.body)
    && ProcessOk(d, v.body.process, v.body.capture, v.body.requestSha256)
    && ClaimsBound(v.body.claims, v.body.capture.body)
  }

  /** The host still says what the proof claims, on every causal field. */
  predicate HostAgrees(d: Digests, h: Host, claims: Body) {
    CurrentFor(d, h, claims).Success? && SameCausal(claims, CurrentFor(d, h, claims).value)
  }

  // ---------- agreement is an equivalence ----------

  lemma JsonSymmetric(a: Value, b: Value)
    requires CJ.SameJson(a, b)
    ensures CJ.SameJson(b, a)
  {
    CJ.SameIffCanonical(a, b);
    CJ.SameIffCanonical(b, a);
  }

  lemma JsonTransitive(a: Value, b: Value, c: Value)
    requires CJ.SameJson(a, b) && CJ.SameJson(b, c)
    ensures CJ.SameJson(a, c)
  {
    CJ.SameIffCanonical(a, b);
    CJ.SameIffCanonical(b, c);
    CJ.SameIffCanonical(a, c);
  }

  lemma CausalReflexive(a: Body)
    ensures SameCausal(a, a)
  {
    CJ.SameIffCanonical(a.lockdownConfig, a.lockdownConfig);
    CJ.SameIffCanonical(a.effectPolicy, a.effectPolicy);
  }

  lemma CausalSymmetric(a: Body, b: Body)
    requires SameCausal(a, b)
    ensures SameCausal(b, a)
  {
    assert SameField(LockdownConfig, a, b) && SameField(EffectPolicyField, a, b);
    JsonSymmetric(a.lockdownConfig, b.lockdownConfig);
    JsonSymmetric(a.effectPolicy, b.effectPolicy);
    forall f: CausalField ensures SameField(f, b, a) {
      assert SameField(f, a, b);
    }
  }

  lemma CausalTransitive(a: Body, b: Body, c: Body)
    requires SameCausal(a, b) && SameCausal(b, c)
    ensures SameCausal(a, c)
  {
    assert SameField(LockdownConfig, a, b) && SameField(EffectPolicyField, a, b);
    assert SameField(LockdownConfig, b, c) && SameField(EffectPolicyField, b, c);
    JsonTransitive(a.lockdownConfig, b.lockdownConfig, c.lockdownConfig);
    JsonTransitive(a.effectPolicy, b.effectPolicy, c.effectPolicy);
    forall f: CausalField ensures SameField(f, a, c) {
      assert SameField(f, a, b) && SameField(f, b, c);
    }
  }

  // ---------- the validator ----------

  lemma SameRequest(d: Digests, h: Host, a: Body, b: Body)
    requires SameCausal(a, b)
    ensures CurrentFor(d, h, a) == CurrentFor(d, h, b)
  {
    assert SameField(CodexHome, a, b) && SameField(RequestedModel, a, b);
    assert SameField(RequestedTools, a, b) && SameField(StartupConfig, a, b);
  }

  /** For claims bound to their binding, the host agrees with the one as it agrees with the other. */
  lemma AgreementTransfers(d: Digests, h: Host, claims: Body, b: Body)
    requires SameCausal(claims, b)
    ensures HostAgrees(d, h, claims) <==> HostAgrees(d, h, b)
  {
    SameRequest(d, h, claims, b);
    CausalSymmetric(claims, b);
    var current := CurrentFor(d, h, b);
    if HostAgrees(d, h, claims) {
      CausalTransitive(b, claims, current.value);
    }
    if HostAgrees(d, h, b) {
      CausalTransitive(claims, b, current.value);
    }
  }

  /** Agreement on the causal fields implies every live drift check. */
  lemma AgreementMeansUndrifted(d: Digests, h: Host, c: Body, model: string, p: Profile)
    requires HostAgrees(d, h, c) && c.requestedModel == model && c.requestedTools == ProfileTools(p)
    requires c.toolProfile == p && StartupOk(c, Some(p))
    ensures Undrifted(d, h, c, model, p)
  {
    var live, current := CurrentFacts(d, h, c);
    AgreementCoversLive(d, h, c, p, live, current);
  }

  /** What the host's answer is made of. */
  lemma CurrentFacts(d: Digests, h: Host, c: Body) returns (live: Live, current: Body)
    requires CurrentFor(d, h, c).Success?
    ensures CurrentFor(d, h, c) == Success(current) && h.binary.Some?
    ensures LiveInputs(d, h, h.resolve(c.codexHome), c.requestedModel, current.toolProfile, c.startupConfig) ==
            Success(live)
    ensures CurrentBody(d, h, h.resolve(c.codexHome), c.requestedModel, current.toolProfile, live) == Success(current)
  {
    current := CurrentFor(d, h, c).value;
    var profile := NormalizedTools(c.requestedTools).value;
    live := LiveInputs(d, h, h.resolve(c.codexHome), c.requestedModel, profile, c.startupConfig).value;
  }

  lemma AgreementCoversLive(d: Digests, h: Host, c: Body, p: Profile, live: Live, current: Body)
    requires h.binary.Some? && SameCausal(c, current)
    requires CurrentBody(d, h, h.resolve(c.codexHome), c.requestedModel, current.toolProfile, live) == Success(current)
    ensures AgreesWith(d, h, c, p, live) && c.toolProfile == current.toolProfile
  {
    assert SameField(ToolProfile, c, current) && SameField(CodexBinary, c, current);
    assert SameField(CodexBinarySha256, c, current) && SameField(CodexVersion, c, current);
    assert SameField(ModelEntrySha256, c, current) && SameField(LockdownConfig, c, current);
    assert SameField(LockdownConfigSha256, c, current) && SameField(CatalogProjectionSha256, c, current);
  }

  /** With the shape in order, the comparison of the capture binding already implies the live drift checks. */
  lemma CleanIff(d: Digests, h: Host, v: Proof, model: string, tools: seq<Tool>)
    requires NormalizedTools(tools).Some? && ShapeOk(d, v, model, NormalizedTools(tools))
    ensures && BindingOk(d, h, v.body.capture) && ProcessOk(d, v.body.process, v.body.capture, v.body.requestSha256)
            && ClaimsBound(v.body.claims, v.body.capture.body)
            && Undrifted(d, h, v.body.claims, model, NormalizedTools(tools).value)
            <==> SelfConsistent(d, v, model, tools) && HostAgrees(d, h, v.body.claims)
  {
    var p, claims := NormalizedTools(tools).value, v.body.claims;
    ShapeFacts(d, v, model, p);
    if ClaimsBound(claims, v.body.capture.body) {
      AgreementTransfers(d, h, claims, v.body.capture.body);
    }
    if HostAgrees(d, h, claims) {
      AgreementMeansUndrifted(d, h, claims, model, p);
    }
  }

  lemma ShapeFacts(d: Digests, v: Proof, model: string, p: Profile)
    requires ShapeOk(d, v, model, Some(p))
    ensures var c := v.body.claims;
            && c.requestedModel == model && c.requestedTools == ProfileTools(p) && c.toolProfile == p
            && StartupOk(c, Some(p))
  {
    assert !Faulty(d, v, model, Some(p), ProfileMismatch) && !Faulty(d, v, model, Some(p), ModelMismatch);
    assert !Faulty(d, v, model, Some(p), ToolsMismatch) && !Faulty(d, v, model, Some(p), StartupInvalid);
  }

  /**
   `validate_surface_proof` for a version 5 proof. It is clean exactly when the proof is consistent in itself and the
   host agrees with it on every causal field; faults of shape are reported in full, before the host is looked at.
   */
  method ValidateSurfaceProof(d: Digests, h: Host, v: Proof, model: string, tools: seq<Tool>)
    returns (errors: set<Error>)
    ensures errors == {} <==> SelfConsistent(d, v, model, tools) && HostAgrees(d, h, v.body.claims)
    ensures !ShapeOk(d, v, model, NormalizedTools(tools)) ==>
            forall e :: e in errors <==> e.Shape? && Faulty(d, v, model, NormalizedTools(tools), e.shape)
  {
    var profile := NormalizedTools(tools);
    errors := ReportFaults(SHAPE_ERRORS, e => Faulty(d, v, model, profile, e));
    EveryFaultIsListed();
    ShapeIff(d, v, model, profile, errors);
    if errors != {} {
      return;
    }
    errors := HostErrors(d, h, v, model, tools, profile.value);
  }

  lemma ShapeIff(d: Digests, v: Proof, model: string, profile: Option<Profile>, errors: set<Error>)
    requires forall e :: e in errors <==> e.Shape? && Faulty(d, v, model, profile, e.shape)
    ensures errors == {} <==> ShapeOk(d, v, model, profile)
    ensures ShapeOk(d, v, model, profile) ==> profile.Some?
  {
    if errors == {} {
      forall e: ShapeError ensures !Faulty(d, v, model, profile, e) {
        assert Shape(e) !in errors;
      }
    } else {
      var e :| e in errors;
      assert Faulty(d, v, model, profile, e.shape);
    }
    assert profile.None? ==> Faulty(d, v, model, profile, UnsupportedTools);
  }

  method HostErrors(d: Digests, h: Host, v: Proof, model: string, tools: seq<Tool>, p: Profile)
    returns (errors: set<Error>)
    requires NormalizedTools(tools) == Some(p) && ShapeOk(d, v, model, Some(p))
    ensures errors == {} <==> SelfConsistent(d, v, model, tools) && HostAgrees(d, h, v.body.claims)
  {
    var binding := BindingErrors(d, h, v.body);
    var drift := DriftErrors(d, h, v.body.claims, model, p);
    CleanIff(d, h, v, model, tools);
    errors := binding + drift;
  }
}
