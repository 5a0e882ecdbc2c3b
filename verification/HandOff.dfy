/**
 The container side of the environment: what the runtime reads back, and that
 it is what the adapter meant.
 */
module HandOff {
  import opened Wrappers
  import opened AgentSpecs
  import opened DeployConfig
  import opened Requests

  // ------------------------------------------------- the runtime's config

  datatype RuntimeConfig = RuntimeConfig(
    packJson: string,
    packUri: string,
    agentName: string,
    providers: string,
    toolSpecs: string,
    azureEndpoint: string,
    storeKind: string,
    storeRoot: string,
    storeUrl: string,
    otlpEndpoint: string,
    port: string,
    clientId: string,
    tracing: bool)

  datatype LoadError = NoPack | BadTracingFlag

  const DEFAULT_PORT := "8088"
  const CLIENT_ID_NAMES := [Platform("FOUNDRY_AGENT_INSTANCE_CLIENT_ID"), Platform("AZURE_CLIENT_ID")]

  function GetEnv(env: Environment, name: EnvName): string {
    if name in env then env[name] else ""
  }

  function FirstOf(env: Environment, names: seq<EnvName>): string {
    if names == [] then "" else if GetEnv(env, names[0]) != "" then GetEnv(env, names[0]) else FirstOf(env, names[1..])
  }

  method FirstEnv(env: Environment, names: seq<EnvName>) returns (v: string)
    ensures v == FirstOf(env, names)
    ensures if v == "" then forall n :: n in names ==> GetEnv(env, n) == ""
            else exists i :: 0 <= i < |names| && v == GetEnv(env, names[i])
                   && forall j :: 0 <= j < i ==> GetEnv(env, names[j]) == ""
  {
    for i := 0 to |names|
      invariant FirstOf(env, names) == FirstOf(env, names[i..])
      invariant forall j :: 0 <= j < i ==> GetEnv(env, names[j]) == ""
    {
      v := GetEnv(env, names[i]);
      if v != "" {
        return;
      }
    }
    v := "";
  }

  /** strconv.ParseBool. */
  function ParseBool(s: string): Option<bool> {
    if s in {"1", "t", "T", "true", "TRUE", "True"} then Some(true)
    else if s in {"0", "f", "F", "false", "FALSE", "False"} then Some(false)
    else None
  }

  function Load(env: Environment): Result<RuntimeConfig, LoadError> {
    var raw := GetEnv(env, TracingEnabled);
    if GetEnv(env, PackJson) == "" && GetEnv(env, PackUri) == "" then Failure(NoPack)
    else if raw != "" && ParseBool(raw).None? then Failure(BadTracingFlag)
    else
      Success(RuntimeConfig(
        GetEnv(env, PackJson), GetEnv(env, PackUri), GetEnv(env, PinnedAgent), GetEnv(env, Providers),
        GetEnv(env, ToolSpecs), GetEnv(env, AzureEndpointName), GetEnv(env, StoreKind), GetEnv(env, StoreRoot),
        GetEnv(env, StoreUrl), GetEnv(env, OtlpEndpoint),
        if GetEnv(env, Platform("PORT")) == "" then DEFAULT_PORT else GetEnv(env, Platform("PORT")),
        FirstOf(env, CLIENT_ID_NAMES), raw != "" && ParseBool(raw) == Some(true)))
  }

  /** loadConfig: the record is filled, then corrected. */
  method LoadConfig(env: Environment) returns (r: Result<RuntimeConfig, LoadError>)
    ensures r == Load(env)
  {
    var clientId := FirstEnv(env, CLIENT_ID_NAMES);
    var cfg := RuntimeConfig(
      GetEnv(env, PackJson), GetEnv(env, PackUri), GetEnv(env, PinnedAgent), GetEnv(env, Providers),
      GetEnv(env, ToolSpecs), GetEnv(env, AzureEndpointName), GetEnv(env, StoreKind), GetEnv(env, StoreRoot),
      GetEnv(env, StoreUrl), GetEnv(env, OtlpEndpoint), GetEnv(env, Platform("PORT")), clientId, false);
    if cfg.port == "" {
      cfg := cfg.(port := DEFAULT_PORT);
    }
    if cfg.packJson == "" && cfg.packUri == "" {
      return Failure(NoPack);
    }
    var raw := GetEnv(env, TracingEnabled);
    if raw != "" {
      var enabled := ParseBool(raw);
      if enabled.None? {
        return Failure(BadTracingFlag);
      }
      cfg := cfg.(tracing := enabled.value);
    }
    r := Success(cfg);
  }

  /**
   When the container starts, and with what of its own: a pack variable must be
   set and the tracing flag, if given, must be a boolean, in this order; the port
   defaults to 8088 and the client id is the agent's own before the general one.
   */
  lemma LoadReports(env: Environment)
    ensures
      var r, flag := Load(env), GetEnv(env, TracingEnabled);
      var port, general := Platform("PORT"), Platform("AZURE_CLIENT_ID");
      var own := Platform("FOUNDRY_AGENT_INSTANCE_CLIENT_ID");
      var noPack := GetEnv(env, PackJson) == "" && GetEnv(env, PackUri) == "";
      && (r == Failure(NoPack) <==> noPack)
      && (r == Failure(BadTracingFlag) <==> !noPack && flag != "" && ParseBool(flag).None?)
      && (r.Success? ==>
            && r.value.port == (if GetEnv(env, port) != "" then GetEnv(env, port) else "8088")
            && r.value.clientId == (if GetEnv(env, own) != "" then GetEnv(env, own) else GetEnv(env, general))
            && r.value.agentName == GetEnv(env, PinnedAgent)
            && (r.value.tracing <==> flag in {"1", "t", "T", "true", "TRUE", "True"}))
  {
    var rest := [Platform("AZURE_CLIENT_ID")];
    assert CLIENT_ID_NAMES[1..] == rest && rest[1..] == [];
    assert FirstOf(env, rest) == GetEnv(env, rest[0]);
  }

  // ------------------------------------------------- the bindings

  /** parseProviderBindings: no text is no bindings; the runtime's record has the adapter's four fields. */
  function ParseBindings(lib: Library, raw: string): Option<seq<ResolvedBinding>> {
    if raw == "" then Some([]) else lib.decodeBindings(raw)
  }

  /** JSON gives a list of bindings back, and no list is encoded as no text. */
  ghost predicate ReadsBindings(lib: Library) {
    forall bs :: lib.encodeBindings(bs) != "" && lib.decodeBindings(lib.encodeBindings(bs)) == Some(bs)
  }

  // ------------------------------------------------- the session store

  /**
   What the container offers a store: where file state goes by default, if there
   is a home directory at all, which directories can be opened, and which redis
   URLs the client library can parse.
   */
  datatype Storage = Storage(defaultDir: Option<string>, opens: string -> bool, parses: string -> bool)

  datatype Store = MemoryStore | FileStore(dir: string) | RedisStore(url: string)

  datatype StoreError = UnknownKind | MissingUrl | NoHome | NotOpened | BadUrl

  function NewFileStore(storage: Storage, root: string): Result<Store, StoreError> {
    if root == "" && storage.defaultDir.None? then Failure(NoHome)
    else
      var dir := if root == "" then storage.defaultDir.value else root;
      if storage.opens(dir) then Success(FileStore(dir)) else Failure(NotOpened)
  }

  function NewRedisStore(storage: Storage, url: string): Result<Store, StoreError> {
    if url == "" then Failure(MissingUrl)
    else if storage.parses(url) then Success(RedisStore(url))
    else Failure(BadUrl)
  }

  function BuildSessionStore(storage: Storage, cfg: RuntimeConfig): Result<Store, StoreError> {
    if cfg.storeKind == "" || cfg.storeKind == MEMORY_STORE then Success(MemoryStore)
    else if cfg.storeKind == FILE_STORE then NewFileStore(storage, cfg.storeRoot)
    else if cfg.storeKind == REDIS_STORE then NewRedisStore(storage, cfg.storeUrl)
    else Failure(UnknownKind)
  }

  /** Every kind of store, whoever set the variables: which are refused, and what the others are. */
  lemma StoreReports(storage: Storage, cfg: RuntimeConfig)
    ensures
      var r := BuildSessionStore(storage, cfg);
      && (r == Failure(UnknownKind) <==> cfg.storeKind !in {"", "memory", "file", "redis"})
      && (r == Failure(MissingUrl) <==> cfg.storeKind == "redis" && cfg.storeUrl == "")
      && (r == Success(MemoryStore) <==> cfg.storeKind in {"", "memory"})
      && (r.Success? && r.value.FileStore? ==> cfg.storeKind == "file" && storage.opens(r.value.dir))
      && (r.Success? && r.value.RedisStore? ==> cfg.storeKind == "redis" && r.value.url == cfg.storeUrl)
  {
  }

  /** The store the deploy config asks for, as far as the container can provide it. */
  ghost predicate IsConfiguredStore(storage: Storage, store: Option<StateStore>, env: map<string, string>,
                                    r: Result<Store, StoreError>)
  {
    if store.None? || store.value.kind == "" || store.value.kind == "memory" then r == Success(MemoryStore)
    else
      var s := store.value;
      if s.kind == "file" then
        match if s.root != "" then Some(s.root) else storage.defaultDir
        case None => r == Failure(NoHome)
        case Some(dir) => r == if storage.opens(dir) then Success(FileStore(dir)) else Failure(NotOpened)
      else
        s.kind == "redis" &&
        var url := Lookup(env, s.urlFromEnv);
        r == if storage.parses(url) then Success(RedisStore(url)) else Failure(BadUrl)
  }

  /** The runtime can only load a pack it was given inline. */
  predicate PackLoads(cfg: RuntimeConfig) {
    cfg.packJson != ""
  }

  // ------------------------------------------------- the hand-off

  /** What the platform adds: its own names, and an OTLP endpoint the adapter may override. */
  ghost predicate FromPlatform(env: Environment) {
    forall name :: name in env ==> name.Platform? || name.OtlpEndpoint?
  }

  /** What the container reads for one of the adapter's variables. */
  lemma ReadBack(lib: Library, x: SpecInput, env: map<string, string>, platform: Environment, name: EnvName)
    requires FromPlatform(platform) && !name.Platform? && !name.OtlpEndpoint?
    ensures GetEnv(platform + AgentEnv(lib, x, env), name) ==
            match EnvVar(lib, x, env, name) case None => "" case Some(v) => v
  {
    hide AgentEnv, EnvVar;
    EnvIsPointwise(lib, x, env, name);
  }

  /** The config's endpoint when tracing overrides it, and otherwise whatever the platform injects. */
  function OtlpSeen(cfg: Config, platform: Environment): string {
    match cfg.observability
    case Some(o) => if o.tracingEnabled && o.otlpEndpoint != "" then o.otlpEndpoint else GetEnv(platform, OtlpEndpoint)
    case None => GetEnv(platform, OtlpEndpoint)
  }

  lemma OtlpReadBack(lib: Library, x: SpecInput, env: map<string, string>, platform: Environment)
    ensures GetEnv(platform + AgentEnv(lib, x, env), OtlpEndpoint) == OtlpSeen(x.cfg, platform)
  {
    hide AgentEnv;
    EnvIsPointwise(lib, x, env, OtlpEndpoint);
  }

  lemma StoreIsBuilt(storage: Storage, cfg: Config, env: map<string, string>, c: RuntimeConfig)
    requires ValidateStateStore(cfg.stateStore) == []
    requires UrlIsSet(cfg.stateStore, env)
    requires if StoreNamed(cfg.stateStore) then
               var s := cfg.stateStore.value;
               && c.storeKind == s.kind && c.storeRoot == s.root
               && c.storeUrl == if s.urlFromEnv == "" then "" else Lookup(env, s.urlFromEnv)
             else c.storeKind == ""
    ensures IsConfiguredStore(storage, cfg.stateStore, env, BuildSessionStore(storage, c))
  {
  }

  lemma AcceptedStore(lib: Library, req: Request)
    requires Accepted(lib, req)
    ensures ValidateStateStore(req.cfg.stateStore) == []
    ensures lib.decodePack(req.pack).Some?
    ensures AllResolve(req.cfg.providers, req.arena)
  {
  }

  /** Everything but the store, at the level of the spec's input. */
  lemma LoadsWhatWasMeant(lib: Library, x: SpecInput, env: map<string, string>, platform: Environment)
    requires FromPlatform(platform)
    requires if x.delivery.inline then x.pack != "" else x.stagedPackUri != ""
    ensures
      var vars := AgentEnv(lib, x, env);
      var r := Load(platform + vars);
      && (PackJson in vars <==> PackUri !in vars)
      && r.Success?
      && var c := r.value;
         && c.packJson == (if x.delivery.inline then x.pack else "")
         && c.packUri == (if x.delivery.inline then "" else x.stagedPackUri)
         && c.providers == lib.encodeBindings(x.bindings) && c.toolSpecs == x.toolSpecs
         && c.azureEndpoint == AzureEndpoint(x.cfg) && c.tracing == Tracing(x.cfg) && c.agentName == ""
         && c.otlpEndpoint == OtlpSeen(x.cfg, platform)
  {
    hide AgentEnv, FromPlatform, AzureEndpoint, OtlpSeen;
    OtlpReadBack(lib, x, env, platform);
    EnvIsPointwise(lib, x, env, PackJson);
    EnvIsPointwise(lib, x, env, PackUri);
    ReadBack(lib, x, env, platform, PackJson);
    ReadBack(lib, x, env, platform, PackUri);
    ReadBack(lib, x, env, platform, PinnedAgent);
    ReadBack(lib, x, env, platform, Providers);
    ReadBack(lib, x, env, platform, ToolSpecs);
    ReadBack(lib, x, env, platform, AzureEndpointName);
    ReadBack(lib, x, env, platform, TracingEnabled);
  }

  lemma LoadsTheStore(lib: Library, storage: Storage, x: SpecInput, env: map<string, string>, platform: Environment)
    requires FromPlatform(platform) && Load(platform + AgentEnv(lib, x, env)).Success?
    requires ValidateStateStore(x.cfg.stateStore) == [] && EnvError(x, env).None?
    ensures IsConfiguredStore(storage, x.cfg.stateStore, env,
                              BuildSessionStore(storage, Load(platform + AgentEnv(lib, x, env)).value))
  {
    hide AgentEnv, FromPlatform, ValidateStateStore, BuildSessionStore, IsConfiguredStore, ParseBool;
    ReadBack(lib, x, env, platform, StoreKind);
    ReadBack(lib, x, env, platform, StoreRoot);
    ReadBack(lib, x, env, platform, StoreUrl);
    StoreIsBuilt(storage, x.cfg, env, Load(platform + AgentEnv(lib, x, env)).value);
  }

  /**
   The hand-off. For every accepted request whose spec can be built, and
   whatever the platform injects: exactly one pack variable is set, the runtime
   accepts the environment and reads back the pack, the bindings, the tool
   specs, the endpoint, the tracing flag and the OTLP endpoint the adapter meant,
   and the store it builds is the configured one unless the container cannot
   provide it: its unknown-kind and missing-URL branches are never reached. It can
   load the pack exactly when the pack was inlined.
   */
  lemma EnvironmentHandOff(lib: Library, storage: Storage, req: Request, platform: Environment)
    requires Accepted(lib, req) && DesiredSpec(lib, req).Success? && FromPlatform(platform)
    requires lib.decodePack("").None?
    ensures
      var vars := DesiredSpec(lib, req).value.env;
      var r := Load(platform + vars);
      && (PackJson in vars <==> PackUri !in vars)
      && r.Success?
      && var c := r.value;
         && (if DecidePackDelivery(req.pack, req.cfg).inline then c.packJson == req.pack && c.packUri == ""
             else c.packJson == "" && c.packUri == PackUriOf(lib, req))
         && c.providers == lib.encodeBindings(Resolved(req.cfg.providers, req.arena))
         && (ReadsBindings(lib) ==> ParseBindings(lib, c.providers) == Some(Resolved(req.cfg.providers, req.arena)))
         && c.toolSpecs == req.toolSpecs && c.agentName == ""
         && c.azureEndpoint == (if req.cfg.azureEndpoint != "" then req.cfg.azureEndpoint
                                else "https://" + req.cfg.account + ".openai.azure.com/")
         && c.tracing == (req.cfg.observability.Some? && req.cfg.observability.value.tracingEnabled)
         && c.otlpEndpoint == OtlpSeen(req.cfg, platform)
         && IsConfiguredStore(storage, req.cfg.stateStore, req.env, BuildSessionStore(storage, c))
         && (PackLoads(c) <==> DecidePackDelivery(req.pack, req.cfg).inline)
  {
    hide AgentEnv, Accepted, InputOf, Load, ValidateStateStore, BuildSessionStore, IsConfiguredStore, FromPlatform;
    InputMeans(lib, req);
    AcceptedStore(lib, req);
    StagedUriIsNotEmpty(lib, req);
    LoadsWhatWasMeant(lib, InputOf(lib, req), req.env, platform);
    LoadsTheStore(lib, storage, InputOf(lib, req), req.env, platform);
  }

  // ------------------------------------------------- the primary binding

  /** The runtime's choice; it also takes a binding without a role for a model. */
  method RuntimePrimaryBinding(bindings: seq<ResolvedBinding>) returns (r: Option<ResolvedBinding>, ghost k: int)
    ensures r.Some? <==> HasRole(bindings, {"", ROLE_LLM})
    ensures r.Some? ==> IsPrimary(bindings, {"", ROLE_LLM}, k) && r.value == bindings[k]
  {
    r, k := None, -1;
    for i := 0 to |bindings|
      invariant forall j :: 0 <= j < i && bindings[j].role in {"", ROLE_LLM} ==> bindings[j].name != DEFAULT_BINDING_NAME
      invariant r.None? <==> forall j :: 0 <= j < i ==> bindings[j].role !in {"", ROLE_LLM}
      invariant r.Some? ==> 0 <= k < i && r.value == bindings[k] && bindings[k].role in {"", ROLE_LLM}
                            && forall j :: 0 <= j < k ==> bindings[j].role !in {"", ROLE_LLM}
    {
      var b := bindings[i];
      if b.role != "" && b.role != ROLE_LLM {
        continue;
      }
      if b.name == DEFAULT_BINDING_NAME {
        return Some(b), i;
      }
      if r.None? {
        r, k := Some(b), i;
      }
    }
  }

  lemma ModelIsThere(lib: Library, req: Request)
    requires Accepted(lib, req)
    ensures
      var bs := Resolved(req.cfg.providers, req.arena);
      HasRole(bs, {ROLE_LLM}) && HasRole(bs, {"", ROLE_LLM})
  {
    hide Resolved;
    var bs := Resolved(req.cfg.providers, req.arena);
    assert HasRole(bs, {ROLE_LLM});
    var i :| 0 <= i < |bs| && bs[i].role in {ROLE_LLM};
    assert bs[i].role in {"", ROLE_LLM};
  }

  /** On the list the adapter injects, both sides choose the same binding, and one exists. */
  lemma BothSidesChooseTheSame(lib: Library, req: Request, j: int, k: int)
    requires Accepted(lib, req)
    ensures
      var bs := Resolved(req.cfg.providers, req.arena);
      && HasRole(bs, {ROLE_LLM}) && HasRole(bs, {"", ROLE_LLM})
      && (IsPrimary(bs, {ROLE_LLM}, j) && IsPrimary(bs, {"", ROLE_LLM}, k) ==> j == k)
  {
    hide Accepted, Resolved, ResolveBinding, HasRole;
    ModelIsThere(lib, req);
    AcceptedStore(lib, req);
    ResolvedInPlace(req.cfg.providers, req.arena);
    var bs := Resolved(req.cfg.providers, req.arena);
    assert forall i :: 0 <= i < |bs| ==> (bs[i].role in {"", ROLE_LLM} <==> bs[i].role in {ROLE_LLM});
  }

  /**
   Through the environment: the bindings the runtime decodes have one that
   supplies the model, and it is the adapter's own choice.
   */
  lemma RuntimeUsesTheAdaptersModel(lib: Library, req: Request, platform: Environment, j: int, k: int)
    requires Accepted(lib, req) && DesiredSpec(lib, req).Success? && FromPlatform(platform)
    requires lib.decodePack("").None? && ReadsBindings(lib)
    ensures
      var r := Load(platform + DesiredSpec(lib, req).value.env);
      && r.Success? && ParseBindings(lib, r.value.providers).Some?
      && var chosen, seen := Resolved(req.cfg.providers, req.arena), ParseBindings(lib, r.value.providers).value;
         && HasRole(seen, {"", ROLE_LLM})
         && (IsPrimary(chosen, {ROLE_LLM}, j) && IsPrimary(seen, {"", ROLE_LLM}, k) ==> chosen[j] == seen[k])
  {
    hide Accepted, DesiredSpec, Load, FromPlatform, ReadsBindings, ParseBindings, Resolved, HasRole;
    EnvironmentHandOff(lib, Storage(None, _ => false, _ => false), req, platform);
    BothSidesChooseTheSame(lib, req, j, k);
  }
}
