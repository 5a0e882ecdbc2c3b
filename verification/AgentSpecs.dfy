/**
 From a request to the agent version it asks for: the variables the container
 will see, the tags, and the part of the request that its hash covers.
 */
module AgentSpecs {
  import opened Wrappers
  import opened BlobUri
  import opened DeployConfig

  // ------------------------------------------------- library functions

  /** The slice of a pack this adapter reads. */
  datatype PackView = PackView(id: string, members: set<string>)

  /** The part of a request its config hash covers. */
  datatype Fingerprint = Fingerprint(
    account: string, project: string, image: string, cpu: string, memory: string,
    protocols: seq<string>, idleTimeoutMinutes: int, tags: map<string, string>,
    bindings: seq<ResolvedBinding>, observability: Option<Observability>, toolSpecs: string)

  /** Hashing, encoding and decoding, as functions the theorems quantify over. */
  datatype Library = Library(
    sha: string -> string,
    encodeFingerprint: Fingerprint -> string,
    encodeBindings: seq<ResolvedBinding> -> string,
    decodeBindings: string -> Option<seq<ResolvedBinding>>,
    decodePack: string -> Option<PackView>,
    lower: char -> char,
    adapterVersion: string)

  /** Digests have a fixed length, and the fingerprint's JSON determines it. */
  ghost predicate Sound(lib: Library) {
    && (forall text :: |lib.sha(text)| == HASH_LENGTH)
    && (forall f, g :: lib.encodeFingerprint(f) == lib.encodeFingerprint(g) ==> f == g)
  }

  /** Two texts are not a collision of the digest. */
  predicate NoCollision(lib: Library, a: string, b: string) {
    lib.sha(a) == lib.sha(b) ==> a == b
  }

  // ------------------------------------------------- environment

  /**
   Container environment variables. The adapter and the runtime each spell the
   names out in a constant block, with the same text; here one constructor
   stands for each name, and Platform for the ones Foundry injects.
   */
  datatype EnvName =
    | PackJson           // PROMPTPACK_PACK_JSON
    | PackUri            // PROMPTPACK_PACK_URI
    | PinnedAgent        // PROMPTPACK_AGENT, never set by the adapter
    | Providers          // PROMPTPACK_PROVIDERS
    | ToolSpecs          // PROMPTPACK_TOOL_SPECS
    | TracingEnabled     // PROMPTPACK_TRACING_ENABLED
    | StoreKind          // PROMPTPACK_STATE_STORE
    | StoreRoot          // PROMPTPACK_STATE_STORE_ROOT
    | StoreUrl           // PROMPTPACK_STATE_STORE_URL
    | OtlpEndpoint       // OTEL_EXPORTER_OTLP_ENDPOINT
    | AzureEndpointName  // PROMPTPACK_AZURE_ENDPOINT
    | Platform(name: string)

  type Environment = map<EnvName, string>

  datatype SpecInput = SpecInput(
    cfg: Config,
    agentName: string,
    packId: string,
    pack: string,
    bindings: seq<ResolvedBinding>,
    delivery: PackDelivery,
    stagedPackUri: string,
    toolSpecs: string)

  datatype SpecError = StoreUrlUnset | NoStagedPack

  /** An unset variable of the deploying process reads as empty. */
  function Lookup(env: map<string, string>, name: string): string {
    if name in env then env[name] else ""
  }

  /** The store the config selects, unless it is the default. */
  function ActiveStore(store: Option<StateStore>): Option<StateStore> {
    if store.None? || store.value.kind in {"", MEMORY_STORE} then None else store
  }

  function Tracing(cfg: Config): bool {
    cfg.observability.Some? && cfg.observability.value.tracingEnabled
  }

  function NonEmptyText(s: string): Option<string> {
    if s == "" then None else Some(s)
  }

  /** A store other than the default is configured. */
  predicate StoreNamed(store: Option<StateStore>) {
    store.Some? && store.value.kind != "" && store.value.kind != "memory"
  }

  /** The value the container must see for each variable, if any. */
  function EnvVar(lib: Library, x: SpecInput, env: map<string, string>, name: EnvName): Option<string> {
    var store := x.cfg.stateStore;
    match name
    case Providers => Some(lib.encodeBindings(x.bindings))
    case AzureEndpointName => Some(AzureEndpoint(x.cfg))
    case ToolSpecs => NonEmptyText(x.toolSpecs)
    case StoreKind => if StoreNamed(store) then Some(store.value.kind) else None
    case StoreRoot => if StoreNamed(store) then NonEmptyText(store.value.root) else None
    case StoreUrl =>
      if StoreNamed(store) && store.value.urlFromEnv != "" then Some(Lookup(env, store.value.urlFromEnv)) else None
    case TracingEnabled => if Tracing(x.cfg) then Some("true") else None
    case OtlpEndpoint => if Tracing(x.cfg) then NonEmptyText(x.cfg.observability.value.otlpEndpoint) else None
    case PackJson => if x.delivery.inline then Some(x.pack) else None
    case PackUri => if x.delivery.inline then None else Some(x.stagedPackUri)
    case _ => None
  }

  function EnvError(x: SpecInput, env: map<string, string>): Option<SpecError> {
    var store := ActiveStore(x.cfg.stateStore);
    if store.Some? && store.value.urlFromEnv != "" && Lookup(env, store.value.urlFromEnv) == "" then Some(StoreUrlUnset)
    else if !x.delivery.inline && x.stagedPackUri == "" then Some(NoStagedPack)
    else None
  }

  /** The variables that select the conversation store. */
  function StoreEnv(store: Option<StateStore>, env: map<string, string>): Environment {
    var active := ActiveStore(store);
    if active.None? then map[]
    else
      map[StoreKind := active.value.kind]
      + (if active.value.root == "" then map[] else map[StoreRoot := active.value.root])
      + (if active.value.urlFromEnv == "" then map[] else map[StoreUrl := Lookup(env, active.value.urlFromEnv)])
  }

  /** addStateStoreEnv: the default store leaves the environment as it is. */
  method AddStateStoreEnv(vars: Environment, store: Option<StateStore>, env: map<string, string>)
      returns (out: Environment, err: Option<SpecError>)
    ensures err == if StoreNamed(store) && store.value.urlFromEnv != "" && Lookup(env, store.value.urlFromEnv) == ""
                   then Some(StoreUrlUnset) else None
    ensures err.None? ==> out == vars + StoreEnv(store, env)
    ensures err.None? ==>
              && (forall v :: v !in {StoreKind, StoreRoot, StoreUrl} ==>
                    (v in out <==> v in vars) && (v in vars ==> out[v] == vars[v]))
              && (!StoreNamed(store) ==> out == vars)
              && (StoreNamed(store) ==>
                    && StoreKind in out && out[StoreKind] == store.value.kind
                    && (store.value.root != "" ==> StoreRoot in out && out[StoreRoot] == store.value.root)
                    && (store.value.urlFromEnv != "" ==>
                          StoreUrl in out && out[StoreUrl] == Lookup(env, store.value.urlFromEnv)))
  {
    out, err := vars, None;
    if store.None? || store.value.kind == "" || store.value.kind == MEMORY_STORE {
      return;
    }
    out := out[StoreKind := store.value.kind];
    if store.value.root != "" {
      out := out[StoreRoot := store.value.root];
    }
    if store.value.urlFromEnv == "" {
      return;
    }
    var url := Lookup(env, store.value.urlFromEnv);
    if url == "" {
      return vars, Some(StoreUrlUnset);
    }
    out := out[StoreUrl := url];
  }

  /** The variables that turn tracing on, and where to. */
  function TracingEnv(cfg: Config): Environment {
    if !Tracing(cfg) then map[]
    else if cfg.observability.value.otlpEndpoint == "" then map[TracingEnabled := "true"]
    else map[TracingEnabled := "true", OtlpEndpoint := cfg.observability.value.otlpEndpoint]
  }

  function PackEnv(x: SpecInput): Environment {
    if x.delivery.inline then map[PackJson := x.pack] else map[PackUri := x.stagedPackUri]
  }

  function BaseEnv(lib: Library, x: SpecInput): Environment {
    map[Providers := lib.encodeBindings(x.bindings), AzureEndpointName := AzureEndpoint(x.cfg)]
    + (if x.toolSpecs == "" then map[] else map[ToolSpecs := x.toolSpecs])
  }

  function AgentEnv(lib: Library, x: SpecInput, env: map<string, string>): Environment {
    BaseEnv(lib, x) + StoreEnv(x.cfg.stateStore, env) + TracingEnv(x.cfg) + PackEnv(x)
  }

  lemma StoreAt(lib: Library, x: SpecInput, env: map<string, string>, name: EnvName)
    ensures
      var part := StoreEnv(x.cfg.stateStore, env);
      && (name in part ==> Some(part[name]) == EnvVar(lib, x, env, name))
      && (name in {StoreKind, StoreRoot, StoreUrl} && EnvVar(lib, x, env, name).Some? ==> name in part)
      && (name in part ==> name in {StoreKind, StoreRoot, StoreUrl})
  {
  }

  lemma TracingAt(lib: Library, x: SpecInput, env: map<string, string>, name: EnvName)
    ensures
      var part := TracingEnv(x.cfg);
      && (name in part ==> Some(part[name]) == EnvVar(lib, x, env, name))
      && (name in {TracingEnabled, OtlpEndpoint} && EnvVar(lib, x, env, name).Some? ==> name in part)
      && (name in part ==> name in {TracingEnabled, OtlpEndpoint})
  {
  }

  lemma PackAt(lib: Library, x: SpecInput, env: map<string, string>, name: EnvName)
    ensures
      var part := PackEnv(x);
      && (name in part ==> Some(part[name]) == EnvVar(lib, x, env, name))
      && (name in {PackJson, PackUri} && EnvVar(lib, x, env, name).Some? ==> name in part)
      && (name in part ==> name in {PackJson, PackUri})
  {
  }

  lemma BaseAt(lib: Library, x: SpecInput, env: map<string, string>, name: EnvName)
    ensures
      var part := BaseEnv(lib, x);
      && (name in part ==> Some(part[name]) == EnvVar(lib, x, env, name))
      && (name in {Providers, AzureEndpointName, ToolSpecs} && EnvVar(lib, x, env, name).Some? ==> name in part)
      && (name in part ==> name in {Providers, AzureEndpointName, ToolSpecs})
  {
  }

  lemma UnionAt(a: Environment, b: Environment, c: Environment, d: Environment, name: EnvName, v: Option<string>)
    requires name in a ==> Some(a[name]) == v
    requires name in b ==> Some(b[name]) == v
    requires name in c ==> Some(c[name]) == v
    requires name in d ==> Some(d[name]) == v
    ensures name in a + b + c + d <==> name in a || name in b || name in c || name in d
    ensures name in a + b + c + d ==> Some((a + b + c + d)[name]) == v
  {
  }

  /** Every variable is there exactly when it is wanted, with the wanted value, and nothing else is. */
  lemma EnvIsPointwise(lib: Library, x: SpecInput, env: map<string, string>, name: EnvName)
    ensures name in AgentEnv(lib, x, env) <==> EnvVar(lib, x, env, name).Some?
    ensures name in AgentEnv(lib, x, env) ==> Some(AgentEnv(lib, x, env)[name]) == EnvVar(lib, x, env, name)
  {
    BaseAt(lib, x, env, name);
    StoreAt(lib, x, env, name);
    TracingAt(lib, x, env, name);
    PackAt(lib, x, env, name);
    UnionAt(BaseEnv(lib, x), StoreEnv(x.cfg.stateStore, env), TracingEnv(x.cfg), PackEnv(x), name,
            EnvVar(lib, x, env, name));
  }

  lemma EqualVar(lib: Library, x: SpecInput, env: map<string, string>, y: SpecInput, env': map<string, string>,
                 name: EnvName)
    requires AgentEnv(lib, x, env) == AgentEnv(lib, y, env')
    ensures EnvVar(lib, x, env, name) == EnvVar(lib, y, env', name)
  {
    EnvIsPointwise(lib, x, env, name);
    EnvIsPointwise(lib, y, env', name);
  }

  /** What equal environments have in common. */
  lemma EqualEnvs(lib: Library, x: SpecInput, env: map<string, string>, y: SpecInput, env': map<string, string>)
    requires AgentEnv(lib, x, env) == AgentEnv(lib, y, env')
    ensures AzureEndpoint(x.cfg) == AzureEndpoint(y.cfg)
    ensures x.delivery.inline == y.delivery.inline
    ensures !x.delivery.inline ==> x.stagedPackUri == y.stagedPackUri
  {
    EqualVar(lib, x, env, y, env', AzureEndpointName);
    EqualVar(lib, x, env, y, env', PackUri);
  }

  lemma EqualStoreVar(lib: Library, x: SpecInput, env: map<string, string>, y: SpecInput, env': map<string, string>,
                      name: EnvName)
    requires AgentEnv(lib, x, env) == AgentEnv(lib, y, env')
    ensures
      var s, t := StoreEnv(x.cfg.stateStore, env), StoreEnv(y.cfg.stateStore, env');
      (name in s <==> name in t) && (name in s ==> s[name] == t[name])
  {
    EqualVar(lib, x, env, y, env', name);
    StoreAt(lib, x, env, name);
    StoreAt(lib, y, env', name);
  }

  lemma EqualStores(lib: Library, x: SpecInput, env: map<string, string>, y: SpecInput, env': map<string, string>)
    requires AgentEnv(lib, x, env) == AgentEnv(lib, y, env')
    ensures StoreEnv(x.cfg.stateStore, env) == StoreEnv(y.cfg.stateStore, env')
  {
    forall name: EnvName {
      EqualStoreVar(lib, x, env, y, env', name);
    }
  }

  lemma BaseUpdates(lib: Library, x: SpecInput)
    ensures
      var vars := map[Providers := lib.encodeBindings(x.bindings), AzureEndpointName := AzureEndpoint(x.cfg)];
      BaseEnv(lib, x) == if x.toolSpecs == "" then vars else vars[ToolSpecs := x.toolSpecs]
  {
  }

  lemma TracingUpdates(vars: Environment, cfg: Config)
    ensures vars + TracingEnv(cfg) ==
            if !Tracing(cfg) then vars
            else if cfg.observability.value.otlpEndpoint == "" then vars[TracingEnabled := "true"]
            else vars[TracingEnabled := "true"][OtlpEndpoint := cfg.observability.value.otlpEndpoint]
  {
  }

  lemma PackUpdates(vars: Environment, x: SpecInput)
    ensures vars + PackEnv(x) == if x.delivery.inline then vars[PackJson := x.pack] else vars[PackUri := x.stagedPackUri]
  {
  }

  /** buildAgentEnv: the variables are written one after another. */
  method BuildAgentEnv(lib: Library, x: SpecInput, env: map<string, string>)
      returns (r: Result<Environment, SpecError>)
    ensures r == match EnvError(x, env) case None => Success(AgentEnv(lib, x, env)) case Some(e) => Failure(e)
  {
    var vars := map[Providers := lib.encodeBindings(x.bindings), AzureEndpointName := AzureEndpoint(x.cfg)];
    if x.toolSpecs != "" {
      vars := vars[ToolSpecs := x.toolSpecs];
    }
    BaseUpdates(lib, x);

    var err;
    vars, err := AddStateStoreEnv(vars, x.cfg.stateStore, env);
    if err.Some? {
      return Failure(err.value);
    }

    ghost var before := vars;
    if x.cfg.observability.Some? && x.cfg.observability.value.tracingEnabled {
      vars := vars[TracingEnabled := "true"];
      if x.cfg.observability.value.otlpEndpoint != "" {
        vars := vars[OtlpEndpoint := x.cfg.observability.value.otlpEndpoint];
      }
    }
    TracingUpdates(before, x.cfg);

    before := vars;
    if x.delivery.inline {
      vars := vars[PackJson := x.pack];
    } else if x.stagedPackUri == "" {
      return Failure(NoStagedPack);
    } else {
      vars := vars[PackUri := x.stagedPackUri];
    }
    PackUpdates(before, x);
    r := Success(vars);
  }

  // ------------------------------------------------- tags and spec

  const TAG_MANAGED_BY := "app.altairalabs.ai/managed-by"
  const TAG_PACK_ID := "promptkit.altairalabs.ai/pack-id"
  const MANAGED_BY_VALUE := "promptarena"

  /** Managed tags win over a user's tag of the same name. */
  function BuildTags(cfg: Config, packId: string): (tags: map<string, string>)
    ensures TAG_MANAGED_BY in tags && tags[TAG_MANAGED_BY] == MANAGED_BY_VALUE
    ensures TAG_PACK_ID in tags && tags[TAG_PACK_ID] == packId
    ensures forall k :: k !in {TAG_MANAGED_BY, TAG_PACK_ID} ==>
              (k in tags <==> k in cfg.tags) && (k in cfg.tags ==> tags[k] == cfg.tags[k])
  {
    cfg.tags[TAG_MANAGED_BY := MANAGED_BY_VALUE][TAG_PACK_ID := packId]
  }

  datatype AgentSpec = AgentSpec(
    name: string, image: string, cpu: string, memory: string, protocols: seq<string>,
    idleTimeoutMinutes: int, env: Environment, metadata: map<string, string>)

  function BuildAgentSpec(lib: Library, x: SpecInput, env: map<string, string>): Result<AgentSpec, SpecError> {
    match EnvError(x, env)
    case Some(e) => Failure(e)
    case None =>
      Success(AgentSpec(x.agentName, x.cfg.image, x.cfg.cpu, x.cfg.memory, x.cfg.protocols, x.cfg.idleTimeoutMinutes,
                        AgentEnv(lib, x, env), BuildTags(x.cfg, x.packId)))
  }
}
