/** The deploy config, provider bindings and the choice of pack delivery. */
module DeployConfig {
  import opened Wrappers
  import opened BlobUri

  // ---------------------------------------------------------------- config

  datatype Observability = Observability(tracingEnabled: bool, otlpEndpoint: string)

  datatype StateStore = StateStore(kind: string, root: string, urlFromEnv: string)

  datatype ProviderBinding = ProviderBinding(
    name: string, role: string, arenaProvider: string, providerType: string, model: string)

  /** A config after its defaults were applied. */
  datatype Config = Config(
    account: string,
    project: string,
    image: string,
    cpu: string,
    memory: string,
    protocols: seq<string>,
    idleTimeoutMinutes: int,
    azureEndpoint: string,
    stagingContainer: string,
    packInlineLimitBytes: int,
    tags: map<string, string>,
    dryRun: bool,
    providers: seq<ProviderBinding>,
    observability: Option<Observability>,
    stateStore: Option<StateStore>)

  const MEMORY_STORE := "memory"
  const FILE_STORE := "file"
  const REDIS_STORE := "redis"

  const DEFAULT_PACK_INLINE_LIMIT_BYTES := 24576

  datatype ConfigError =
    | MissingAccount | MissingProject | MissingImage
    | UnknownStore | RedisNeedsUrl | RootNeedsFile | UrlNeedsRedis
    | StagingNotHttps | OtlpNotUrl

  function When(condition: bool, e: ConfigError): seq<ConfigError> {
    if condition then [e] else []
  }

  function ValidateStateStore(store: Option<StateStore>): seq<ConfigError> {
    if store.None? || store.value.kind == "" then []
    else
      var s := store.value;
      if s.kind !in {MEMORY_STORE, FILE_STORE, REDIS_STORE} then [UnknownStore]
      else
        When(s.kind == REDIS_STORE && s.urlFromEnv == "", RedisNeedsUrl)
        + When(s.kind != FILE_STORE && s.root != "", RootNeedsFile)
        + When(s.kind != REDIS_STORE && s.urlFromEnv != "", UrlNeedsRedis)
  }

  function ValidateStructure(cfg: Config): seq<ConfigError> {
    When(cfg.account == "", MissingAccount)
    + When(cfg.project == "", MissingProject)
    + When(cfg.image == "", MissingImage)
    + ValidateStateStore(cfg.stateStore)
    + When(cfg.stagingContainer != "" && !HasPrefix(cfg.stagingContainer, HTTPS), StagingNotHttps)
    + (match cfg.observability
       case None => []
       case Some(o) =>
         When(o.otlpEndpoint != "" && !HasPrefix(o.otlpEndpoint, "http://") && !HasPrefix(o.otlpEndpoint, HTTPS),
              OtlpNotUrl))
  }

  /** The endpoint derived from the account unless it is set. */
  function AzureEndpoint(cfg: Config): string {
    if cfg.azureEndpoint != "" then cfg.azureEndpoint
    else HTTPS + cfg.account + ".openai.azure.com/"
  }

  // ---------------------------------------------------------------- delivery

  datatype PackDelivery = PackDelivery(inline: bool, sizeBytes: nat)

  function EffectiveInlineLimit(cfg: Config): int {
    if cfg.packInlineLimitBytes <= 0 then DEFAULT_PACK_INLINE_LIMIT_BYTES else cfg.packInlineLimitBytes
  }

  function DecidePackDelivery(pack: string, cfg: Config): PackDelivery {
    PackDelivery(|pack| <= EffectiveInlineLimit(cfg), |pack|)
  }

  /** Plan and apply both refuse a pack that can be neither inlined nor staged. */
  predicate Deliverable(delivery: PackDelivery, cfg: Config) {
    delivery.inline || cfg.stagingContainer != ""
  }

  // ---------------------------------------------------------------- bindings

  const ROLE_LLM := "llm"
  const DEFAULT_BINDING_NAME := "default"

  datatype ResolvedBinding = ResolvedBinding(name: string, role: string, providerType: string, model: string)

  datatype ArenaProvider = ArenaProvider(providerType: string, model: string)

  /** No arena config at all is an arena without providers. */
  datatype ArenaConfig = ArenaConfig(loaded: map<string, ArenaProvider>, specs: map<string, ArenaProvider>)

  function ArenaLookup(arena: ArenaConfig, id: string): Option<ArenaProvider> {
    if id in arena.loaded then Some(arena.loaded[id])
    else if id in arena.specs then Some(arena.specs[id])
    else None
  }

  function ResolveBinding(b: ProviderBinding, arena: ArenaConfig): Option<ResolvedBinding> {
    var role := if b.role == "" then ROLE_LLM else b.role;
    if b.arenaProvider == "" then Some(ResolvedBinding(b.name, role, b.providerType, b.model))
    else
      match ArenaLookup(arena, b.arenaProvider)
      case None => None
      case Some(p) => Some(ResolvedBinding(b.name, role, p.providerType, p.model))
  }

  /** The bindings that resolve, in order. */
  function Resolved(bindings: seq<ProviderBinding>, arena: ArenaConfig): seq<ResolvedBinding> {
    if bindings == [] then []
    else
      var before := Resolved(bindings[..|bindings| - 1], arena);
      match ResolveBinding(bindings[|bindings| - 1], arena)
      case None => before
      case Some(r) => before + [r]
  }

  predicate AllResolve(bindings: seq<ProviderBinding>, arena: ArenaConfig) {
    forall b :: b in bindings ==> ResolveBinding(b, arena).Some?
  }

  method ResolveBindings(bindings: seq<ProviderBinding>, arena: ArenaConfig)
      returns (resolved: seq<ResolvedBinding>, missing: seq<string>)
    ensures resolved == Resolved(bindings, arena)
    ensures missing == [] <==> AllResolve(bindings, arena)
  {
    resolved, missing := [], [];
    for i := 0 to |bindings|
      invariant resolved == Resolved(bindings[..i], arena)
      invariant missing == [] <==> AllResolve(bindings[..i], arena)
    {
      var b := bindings[i];
      assert bindings[..i + 1] == bindings[..i] + [b];
      var role := b.role;
      if role == "" {
        role := ROLE_LLM;
      }
      var out := ResolvedBinding(b.name, role, b.providerType, b.model);
      if b.arenaProvider != "" {
        var p := ArenaLookup(arena, b.arenaProvider);
        if p.None? {
          missing := missing + [b.arenaProvider];
          assert b in bindings[..i + 1];
          continue;
        }
        out := out.(providerType := p.value.providerType, model := p.value.model);
      }
      resolved := resolved + [out];
    }
    assert bindings[..|bindings|] == bindings;
  }

  /** A fully resolved list keeps every binding at its place and leaves no role empty. */
  lemma {:induction false} ResolvedInPlace(bindings: seq<ProviderBinding>, arena: ArenaConfig)
    requires AllResolve(bindings, arena)
    ensures |Resolved(bindings, arena)| == |bindings|
    ensures forall i :: 0 <= i < |bindings| ==>
              && Some(Resolved(bindings, arena)[i]) == ResolveBinding(bindings[i], arena)
              && Resolved(bindings, arena)[i].role != ""
              && var b, r := bindings[i], Resolved(bindings, arena)[i];
                 && r.name == b.name && r.role == (if b.role == "" then "llm" else b.role)
                 && if b.arenaProvider == "" then r.providerType == b.providerType && r.model == b.model
                    else if b.arenaProvider in arena.loaded then
                      ArenaProvider(r.providerType, r.model) == arena.loaded[b.arenaProvider]
                    else b.arenaProvider in arena.specs
                         && ArenaProvider(r.providerType, r.model) == arena.specs[b.arenaProvider]
  {
    if bindings != [] {
      var before := bindings[..|bindings| - 1];
      forall b | b in before ensures ResolveBinding(b, arena).Some? {
        assert b in bindings;
      }
      ResolvedInPlace(before, arena);
      assert bindings[|bindings| - 1] in bindings;
    }
  }

  /**
   Which binding supplies the conversation's model, given which roles qualify:
   the first one named "default" if any, else the first of all.
   */
  ghost predicate IsPrimary(bs: seq<ResolvedBinding>, roles: set<string>, k: int) {
    && 0 <= k < |bs| && bs[k].role in roles
    && if bs[k].name == "default"
       then forall i :: 0 <= i < k ==> !(bs[i].role in roles && bs[i].name == "default")
       else (forall i :: 0 <= i < |bs| ==> !(bs[i].role in roles && bs[i].name == "default"))
            && forall i :: 0 <= i < k ==> bs[i].role !in roles
  }

  predicate HasRole(bs: seq<ResolvedBinding>, roles: set<string>) {
    exists i :: 0 <= i < |bs| && bs[i].role in roles
  }

  /** The adapter's choice. */
  method PrimaryBinding(resolved: seq<ResolvedBinding>) returns (r: Option<ResolvedBinding>, ghost k: int)
    ensures r.Some? <==> HasRole(resolved, {ROLE_LLM})
    ensures r.Some? ==> IsPrimary(resolved, {ROLE_LLM}, k) && r.value == resolved[k]
  {
    r, k := None, -1;
    for i := 0 to |resolved|
      invariant forall j :: 0 <= j < i ==> resolved[j].role == ROLE_LLM ==> resolved[j].name != DEFAULT_BINDING_NAME
      invariant r.None? <==> forall j :: 0 <= j < i ==> resolved[j].role != ROLE_LLM
      invariant r.Some? ==> 0 <= k < i && r.value == resolved[k] && resolved[k].role == ROLE_LLM
                            && forall j :: 0 <= j < k ==> resolved[j].role != ROLE_LLM
    {
      var b := resolved[i];
      if b.role != ROLE_LLM {
        continue;
      }
      if b.name == DEFAULT_BINDING_NAME {
        return Some(b), i;
      }
      if r.None? {
        r, k := Some(b), i;
      }
    }
  }

  lemma PrimaryIsUnique(bs: seq<ResolvedBinding>, roles: set<string>, j: int, k: int)
    requires IsPrimary(bs, roles, j) && IsPrimary(bs, roles, k)
    ensures j == k
  {
  }
}
