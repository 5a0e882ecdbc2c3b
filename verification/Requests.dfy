/**
 One plan or apply request, what the adapter derives from it before any I/O,
 and how far the recorded hashes determine the version it asks for.
 */
module Requests {
  import opened Wrappers
  import opened AdapterState
  import opened AgentName
  import opened AgentSpecs
  import opened BlobUri
  import opened DeployConfig

  /** `env` is the environment of the deploying process, read for the store URL. */
  datatype Request = Request(
    cfg: Config, arena: ArenaConfig, toolSpecs: string, pack: string, env: map<string, string>)

  datatype RequestError = BadConfig | BadState(error: StateError) | BadBindings | NoPrimary | Undeliverable | BadPack

  datatype PlanContext = PlanContext(
    cfg: Config,
    agentName: string,
    packId: string,
    prior: State,
    packHash: string,
    configHash: string,
    bindings: seq<ResolvedBinding>,
    toolSpecs: string,
    delivery: PackDelivery)

  function FingerprintOf(req: Request): Fingerprint {
    var c := req.cfg;
    Fingerprint(c.account, c.project, c.image, c.cpu, c.memory, c.protocols, c.idleTimeoutMinutes, c.tags,
                Resolved(c.providers, req.arena), c.observability, req.toolSpecs)
  }

  function PackHash(lib: Library, req: Request): string {
    lib.sha(req.pack)
  }

  function ConfigHash(lib: Library, req: Request): string {
    lib.sha(lib.encodeFingerprint(FingerprintOf(req)))
  }

  /** gatherPlanInput: the checks in the order they are made. */
  function Gather(lib: Library, req: Request, stored: RawState): Result<PlanContext, RequestError> {
    var cfg := req.cfg;
    if ValidateStructure(cfg) != [] then Failure(BadConfig)
    else
      match Decode(stored)
      case Failure(e) => Failure(BadState(e))
      case Success(prior) =>
        if !AllResolve(cfg.providers, req.arena) then Failure(BadBindings)
        else if !HasRole(Resolved(cfg.providers, req.arena), {ROLE_LLM}) then Failure(NoPrimary)
        else
          var delivery := DecidePackDelivery(req.pack, cfg);
          if !Deliverable(delivery, cfg) then Failure(Undeliverable)
          else
            match lib.decodePack(req.pack)
            case None => Failure(BadPack)
            case Some(view) =>
              if view.id == "" || view.members == {} then Failure(BadPack)
              else
                Success(PlanContext(cfg, Sanitized(view.id, lib.lower), view.id, prior, PackHash(lib, req),
                                    ConfigHash(lib, req), Resolved(cfg.providers, req.arena), req.toolSpecs, delivery))
  }

  /** A request whose own parts pass every check; the recorded state is checked apart. */
  predicate Accepted(lib: Library, req: Request) {
    Gather(lib, req, Absent).Success?
  }

  lemma GatherSplits(lib: Library, req: Request, stored: RawState)
    ensures Gather(lib, req, stored).Success? <==> Accepted(lib, req) && Decode(stored).Success?
    ensures Gather(lib, req, stored).Success? ==>
              Gather(lib, req, stored).value == Gather(lib, req, Absent).value.(prior := Decode(stored).value)
  {
  }

  // ------------------------------------------------- which requests are accepted

  /** What the config must say about itself. */
  predicate GoodConfig(c: Config) {
    && c.account != "" && c.project != "" && c.image != ""
    && (c.stateStore.Some? && c.stateStore.value.kind != "" ==>
          var s := c.stateStore.value;
          && s.kind in {"memory", "file", "redis"}
          && (s.kind == "redis" <==> s.urlFromEnv != "") && (s.root != "" ==> s.kind == "file"))
    && (c.stagingContainer != "" ==> HasPrefix(c.stagingContainer, "https://"))
    && (c.observability.Some? && c.observability.value.otlpEndpoint != "" ==>
          var url := c.observability.value.otlpEndpoint;
          HasPrefix(url, "http://") || HasPrefix(url, "https://"))
  }

  predicate BindingsResolve(req: Request) {
    forall b :: b in req.cfg.providers && b.arenaProvider != "" ==>
      b.arenaProvider in req.arena.loaded || b.arenaProvider in req.arena.specs
  }

  predicate NamesAModel(req: Request) {
    exists b :: b in req.cfg.providers && b.role in {"", "llm"}
  }

  /** Small enough for the environment: at most the limit set, or 24576 bytes when none is. */
  predicate FitsInline(req: Request) {
    var limit := req.cfg.packInlineLimitBytes;
    |req.pack| <= if limit > 0 then limit else 24576
  }

  predicate GoodPack(lib: Library, req: Request) {
    var pack := lib.decodePack(req.pack);
    pack.Some? && pack.value.id != "" && pack.value.members != {}
  }

  lemma ConfigIsValidated(c: Config)
    ensures ValidateStructure(c) == [] <==> GoodConfig(c)
  {
    StoreIsValidated(c.stateStore);
    hide ValidateStateStore, HasPrefix;
  }

  lemma StoreIsValidated(store: Option<StateStore>)
    ensures ValidateStateStore(store) == [] <==>
            (store.Some? && store.value.kind != "" ==>
               var s := store.value;
               && s.kind in {"memory", "file", "redis"}
               && (s.kind == "redis" <==> s.urlFromEnv != "") && (s.root != "" ==> s.kind == "file"))
  {
  }

  lemma ModelIsFound(req: Request)
    requires AllResolve(req.cfg.providers, req.arena)
    ensures HasRole(Resolved(req.cfg.providers, req.arena), {ROLE_LLM}) <==> NamesAModel(req)
  {
    hide Resolved, ResolveBinding;
    ResolvedInPlace(req.cfg.providers, req.arena);
    var bs, rs := req.cfg.providers, Resolved(req.cfg.providers, req.arena);
    if NamesAModel(req) {
      var b :| b in bs && b.role in {"", "llm"};
      var i :| 0 <= i < |bs| && bs[i] == b;
      assert rs[i].role == "llm";
    }
    if HasRole(rs, {ROLE_LLM}) {
      var i :| 0 <= i < |rs| && rs[i].role in {ROLE_LLM};
      assert bs[i] in bs && bs[i].role in {"", "llm"};
    }
  }

  /**
   Which requests are refused, and with what: the first of these checks to fail,
   in this order, on the request's own fields and the recorded text. Nothing else
   is refused.
   */
  lemma RefusedExactly(lib: Library, req: Request, stored: RawState)
    ensures
      var r := Gather(lib, req, stored);
      && (!GoodConfig(req.cfg) ==> r == Failure(BadConfig))
      && (GoodConfig(req.cfg) ==>
            if Decode(stored).Failure? then r == Failure(BadState(Decode(stored).error))
            else if !BindingsResolve(req) then r == Failure(BadBindings)
            else if !NamesAModel(req) then r == Failure(NoPrimary)
            else if !FitsInline(req) && req.cfg.stagingContainer == "" then r == Failure(Undeliverable)
            else if !GoodPack(lib, req) then r == Failure(BadPack)
            else r.Success? && r.value.prior == Decode(stored).value && (r.value.delivery.inline <==> FitsInline(req))
                 && r.value.delivery.sizeBytes == |req.pack|)
  {
    hide Decode, ValidateStructure, GoodConfig, Resolved, NamesAModel, HasRole;
    ConfigIsValidated(req.cfg);
    assert AllResolve(req.cfg.providers, req.arena) <==> BindingsResolve(req);
    if BindingsResolve(req) {
      ModelIsFound(req);
    }
  }

  /** Where the request's pack is read from, empty when it is inlined. */
  function PackUriOf(lib: Library, req: Request): string {
    if DecidePackDelivery(req.pack, req.cfg).inline then ""
    else StagedPackUri(req.cfg.stagingContainer, PackHash(lib, req))
  }

  /** Nothing for a pack that fits, and otherwise the digest's own name in the container. */
  lemma StagedUnder(lib: Library, req: Request)
    ensures PackUriOf(lib, req) == "" <==> FitsInline(req)
    ensures !FitsInline(req) ==>
              var c := req.cfg.stagingContainer;
              var base := if c != "" && c[|c| - 1] == '/' then c[..|c| - 1] else c;
              PackUriOf(lib, req) == base + "/" + lib.sha(req.pack) + ".json"
  {
    StagedUriIsNotEmpty(lib, req);
  }

  function InputOf(lib: Library, req: Request): SpecInput
    requires Accepted(lib, req)
  {
    var c := Gather(lib, req, Absent).value;
    SpecInput(c.cfg, c.agentName, c.packId, req.pack, c.bindings, c.delivery, PackUriOf(lib, req), c.toolSpecs)
  }

  function NameOf(lib: Library, req: Request): string
    requires Accepted(lib, req)
  {
    Gather(lib, req, Absent).value.agentName
  }

  /** So a recorded name can stand for "the agent exists". */
  lemma NamesAreNotEmpty(lib: Library, req: Request)
    requires Accepted(lib, req)
    ensures Legal(NameOf(lib, req))
  {
    SanitizedIsLegal(lib.decodePack(req.pack).value.id, lib.lower);
  }

  /** The only thing that can keep an accepted request from being built. */
  lemma BuiltExactly(lib: Library, req: Request)
    requires Accepted(lib, req)
    ensures DesiredSpec(lib, req).Success? <==> UrlIsSet(req.cfg.stateStore, req.env)
    ensures DesiredSpec(lib, req).Failure? ==> DesiredSpec(lib, req).error == StoreUrlUnset
  {
    hide AgentEnv, Accepted, InputOf, BuildTags;
    InputMeans(lib, req);
    StagedUriIsNotEmpty(lib, req);
  }

  /** The version an accepted request asks for. */
  function DesiredSpec(lib: Library, req: Request): Result<AgentSpec, SpecError>
    requires Accepted(lib, req)
  {
    BuildAgentSpec(lib, InputOf(lib, req), req.env)
  }

  /**
   From request to version, end to end: a legal name, the config's own resources
   each in its place, exactly the wanted environment, and tags that keep the
   user's but attribute the version to its pack.
   */
  lemma DeployedAsConfigured(lib: Library, req: Request)
    requires Accepted(lib, req) && DesiredSpec(lib, req).Success?
    ensures
      var spec, c, packId := DesiredSpec(lib, req).value, req.cfg, lib.decodePack(req.pack).value.id;
      && spec.name == NameOf(lib, req) == Sanitized(packId, lib.lower) && Legal(spec.name)
      && spec.image == c.image && spec.cpu == c.cpu && spec.memory == c.memory
      && spec.protocols == c.protocols && spec.idleTimeoutMinutes == c.idleTimeoutMinutes
      && (forall v :: v in spec.env <==> EnvVar(lib, InputOf(lib, req), req.env, v).Some?)
      && (forall v :: v in spec.env ==> EnvVar(lib, InputOf(lib, req), req.env, v) == Some(spec.env[v]))
      && var managedBy, pack := "app.altairalabs.ai/managed-by", "promptkit.altairalabs.ai/pack-id";
      && pack in spec.metadata && spec.metadata[pack] == packId
      && managedBy in spec.metadata && spec.metadata[managedBy] == "promptarena"
      && (forall k :: k in c.tags && k !in {managedBy, pack} ==>
            k in spec.metadata && spec.metadata[k] == c.tags[k])
  {
    hide AgentEnv, EnvVar, Sanitized, Legal, EnvError;
    SanitizedIsLegal(lib.decodePack(req.pack).value.id, lib.lower);
    forall v: EnvName {
      EnvIsPointwise(lib, InputOf(lib, req), req.env, v);
    }
  }

  // ------------------------------------------------- what the hashes determine

  /** The inputs of a version that neither hash covers. */
  predicate SameUnhashedInputs(lib: Library, a: Request, b: Request) {
    && AzureEndpoint(a.cfg) == AzureEndpoint(b.cfg)
    && StoreEnv(a.cfg.stateStore, a.env) == StoreEnv(b.cfg.stateStore, b.env)
    && PackUriOf(lib, a) == PackUriOf(lib, b)
  }

  predicate SameHashes(lib: Library, a: Request, b: Request) {
    PackHash(lib, a) == PackHash(lib, b) && ConfigHash(lib, a) == ConfigHash(lib, b)
  }

  /** Neither the packs nor the encoded fingerprints of the two requests collide. */
  predicate Distinguished(lib: Library, a: Request, b: Request) {
    && NoCollision(lib, a.pack, b.pack)
    && NoCollision(lib, lib.encodeFingerprint(FingerprintOf(a)), lib.encodeFingerprint(FingerprintOf(b)))
  }

  /** The requests agree on everything a hash covers. */
  predicate SameHashedInputs(a: Request, b: Request) {
    var c, d := a.cfg, b.cfg;
    && a.pack == b.pack && a.toolSpecs == b.toolSpecs
    && c.account == d.account && c.project == d.project && c.image == d.image
    && c.cpu == d.cpu && c.memory == d.memory && c.protocols == d.protocols
    && c.idleTimeoutMinutes == d.idleTimeoutMinutes && c.tags == d.tags
    && Resolved(c.providers, a.arena) == Resolved(d.providers, b.arena) && c.observability == d.observability
  }

  /**
   The hashes are equal exactly when the pack, the tool specs, the resolved
   bindings and eight fields of the config are: any change to one of these moves
   a hash, and a change to anything else moves none.
   */
  lemma HashesDetermine(lib: Library, a: Request, b: Request)
    requires Sound(lib) && Distinguished(lib, a, b)
    ensures SameHashes(lib, a, b) <==> SameHashedInputs(a, b)
    ensures SameHashes(lib, a, b) ==> FingerprintOf(a) == FingerprintOf(b)
  {
    hide Resolved;
  }

  lemma StagedUriIsNotEmpty(lib: Library, req: Request)
    ensures PackUriOf(lib, req) == "" <==> DecidePackDelivery(req.pack, req.cfg).inline
  {
  }

  lemma InputMeans(lib: Library, req: Request)
    requires Accepted(lib, req)
    ensures
      var x := InputOf(lib, req);
      && x.cfg == req.cfg && x.pack == req.pack && x.toolSpecs == req.toolSpecs
      && x.bindings == Resolved(req.cfg.providers, req.arena)
      && x.delivery == DecidePackDelivery(req.pack, req.cfg) && x.stagedPackUri == PackUriOf(lib, req)
      && x.agentName == NameOf(lib, req) == Sanitized(x.packId, lib.lower)
      && lib.decodePack(req.pack).Some? && x.packId == lib.decodePack(req.pack).value.id
  {
    hide Decode, ValidateStructure, AllResolve, HasRole;
  }

  lemma SpecMeans(lib: Library, req: Request)
    requires Accepted(lib, req) && DesiredSpec(lib, req).Success?
    ensures
      var spec, x, c := DesiredSpec(lib, req).value, InputOf(lib, req), req.cfg;
      spec == AgentSpec(x.agentName, c.image, c.cpu, c.memory, c.protocols, c.idleTimeoutMinutes,
                        AgentEnv(lib, x, req.env), BuildTags(c, x.packId))
  {
    hide Accepted, InputOf, AgentEnv, BuildTags;
    InputMeans(lib, req);
  }

  lemma SameEnvSameInputs(lib: Library, a: Request, b: Request)
    requires Accepted(lib, a) && Accepted(lib, b)
    requires AgentEnv(lib, InputOf(lib, a), a.env) == AgentEnv(lib, InputOf(lib, b), b.env)
    ensures SameUnhashedInputs(lib, a, b)
  {
    hide Accepted, InputOf, AgentEnv, StoreEnv, AzureEndpoint, PackUriOf;
    var x, y := InputOf(lib, a), InputOf(lib, b);
    InputMeans(lib, a);
    InputMeans(lib, b);
    EqualEnvs(lib, x, a.env, y, b.env);
    EqualStores(lib, x, a.env, y, b.env);
    StagedUriIsNotEmpty(lib, a);
    StagedUriIsNotEmpty(lib, b);
  }

  lemma SameInputsSameEnv(lib: Library, a: Request, b: Request)
    requires Accepted(lib, a) && Accepted(lib, b) && SameUnhashedInputs(lib, a, b)
    requires a.pack == b.pack && FingerprintOf(a) == FingerprintOf(b)
    ensures AgentEnv(lib, InputOf(lib, a), a.env) == AgentEnv(lib, InputOf(lib, b), b.env)
    ensures InputOf(lib, a).packId == InputOf(lib, b).packId
  {
    hide Accepted, InputOf, StoreEnv, AzureEndpoint, PackUriOf, Resolved, DecidePackDelivery;
    InputMeans(lib, a);
    InputMeans(lib, b);
    StagedUriIsNotEmpty(lib, a);
    StagedUriIsNotEmpty(lib, b);
    var x, y := InputOf(lib, a), InputOf(lib, b);
    assert BaseEnv(lib, x) == BaseEnv(lib, y);
    assert TracingEnv(x.cfg) == TracingEnv(y.cfg);
    assert PackEnv(x) == PackEnv(y);
  }

  /**
   Two requests the recorded hashes cannot tell apart ask for the same version
   exactly when they also agree on the three inputs no hash covers: the
   effective endpoint, the selected store with its looked-up URL, and where the
   pack is read from.
   */
  lemma FingerprintNoninterference(lib: Library, a: Request, b: Request)
    requires Sound(lib) && Distinguished(lib, a, b) && SameHashes(lib, a, b)
    requires Accepted(lib, a) && DesiredSpec(lib, a).Success?
    requires Accepted(lib, b) && DesiredSpec(lib, b).Success?
    ensures DesiredSpec(lib, a) == DesiredSpec(lib, b) <==> SameUnhashedInputs(lib, a, b)
  {
    hide Accepted, InputOf, DesiredSpec, SameUnhashedInputs, AgentEnv, Resolved, Sound, Distinguished, SameHashes;
    HashesDetermine(lib, a, b);
    SpecMeans(lib, a);
    SpecMeans(lib, b);
    InputMeans(lib, a);
    InputMeans(lib, b);
    if DesiredSpec(lib, a) == DesiredSpec(lib, b) {
      SameEnvSameInputs(lib, a, b);
    }
    if SameUnhashedInputs(lib, a, b) {
      SameInputsSameEnv(lib, a, b);
    }
  }

  /** The same request with the config fields no hash covers set to these. */
  function Edited(req: Request, endpoint: string, store: Option<StateStore>): Request {
    req.(cfg := req.cfg.(azureEndpoint := endpoint, stateStore := store))
  }

  /** The store's URL variable, if it names one, is set where the deploy runs. */
  predicate UrlIsSet(store: Option<StateStore>, env: map<string, string>) {
    StoreNamed(store) && store.value.urlFromEnv != "" ==> Lookup(env, store.value.urlFromEnv) != ""
  }

  lemma EditIsAccepted(lib: Library, req: Request, endpoint: string, store: Option<StateStore>)
    requires Accepted(lib, req) && ValidateStateStore(store) == []
    ensures
      var edited := Edited(req, endpoint, store);
      && Accepted(lib, edited) && SameHashes(lib, req, edited) && PackUriOf(lib, req) == PackUriOf(lib, edited)
      && InputOf(lib, edited) == InputOf(lib, req).(cfg := edited.cfg) && FingerprintOf(req) == FingerprintOf(edited)
  {
    hide ValidateStateStore, Decode, Resolved;
    var edited := Edited(req, endpoint, store);
    assert ValidateStructure(edited.cfg) == ValidateStructure(req.cfg);
    assert DecidePackDelivery(edited.pack, edited.cfg) == DecidePackDelivery(req.pack, req.cfg);
  }

  /**
   Editing azure_endpoint or state_store, to anything or back to the default,
   moves no hash; and the edited request asks for the same version exactly when
   neither the effective endpoint nor the store the container sees has changed.
   */
  lemma UnhashedEditIsInvisible(lib: Library, req: Request, endpoint: string, store: Option<StateStore>)
    requires Accepted(lib, req) && DesiredSpec(lib, req).Success?
    requires ValidateStateStore(store) == [] && UrlIsSet(store, req.env)
    ensures
      var edited := Edited(req, endpoint, store);
      && Accepted(lib, edited) && DesiredSpec(lib, edited).Success?
      && SameHashes(lib, req, edited) && NameOf(lib, req) == NameOf(lib, edited)
      && PackUriOf(lib, req) == PackUriOf(lib, edited)
      && (DesiredSpec(lib, edited) == DesiredSpec(lib, req) <==>
            && AzureEndpoint(edited.cfg) == AzureEndpoint(req.cfg)
            && StoreEnv(store, req.env) == StoreEnv(req.cfg.stateStore, req.env))
  {
    hide Accepted, InputOf, AgentEnv, StoreEnv, AzureEndpoint, PackUriOf, SameHashes, Lookup;
    var edited := Edited(req, endpoint, store);
    EditIsAccepted(lib, req, endpoint, store);
    InputMeans(lib, req);
    InputMeans(lib, edited);
    StagedUriIsNotEmpty(lib, edited);
    assert EnvError(InputOf(lib, edited), edited.env).None?;
    SpecMeans(lib, req);
    SpecMeans(lib, edited);
    if DesiredSpec(lib, edited) == DesiredSpec(lib, req) {
      SameEnvSameInputs(lib, req, edited);
    }
    if SameUnhashedInputs(lib, req, edited) {
      SameInputsSameEnv(lib, req, edited);
    }
  }

  lemma OwnStoreIsGood(lib: Library, req: Request)
    requires Accepted(lib, req) && DesiredSpec(lib, req).Success?
    ensures ValidateStateStore(req.cfg.stateStore) == [] && UrlIsSet(req.cfg.stateStore, req.env)
  {
    hide DesiredSpec, UrlIsSet, Decode, ValidateStateStore;
    BuiltExactly(lib, req);
  }

  /** Editing azure_endpoint alone, or removing it, moves no hash, yet asks for another version. */
  lemma EndpointEditIsInvisible(lib: Library, req: Request, endpoint: string)
    requires Accepted(lib, req) && DesiredSpec(lib, req).Success?
    requires AzureEndpoint(req.cfg.(azureEndpoint := endpoint)) != AzureEndpoint(req.cfg)
    ensures
      var edited := req.(cfg := req.cfg.(azureEndpoint := endpoint));
      && Accepted(lib, edited) && DesiredSpec(lib, edited).Success?
      && SameHashes(lib, req, edited) && NameOf(lib, req) == NameOf(lib, edited)
      && DesiredSpec(lib, edited) != DesiredSpec(lib, req)
  {
    hide Accepted, DesiredSpec, NameOf, SameHashes, PackUriOf, ValidateStateStore, UrlIsSet;
    OwnStoreIsGood(lib, req);
    UnhashedEditIsInvisible(lib, req, endpoint, req.cfg.stateStore);
    assert Edited(req, endpoint, req.cfg.stateStore) == req.(cfg := req.cfg.(azureEndpoint := endpoint));
  }

  /** So does editing state_store alone. */
  lemma StoreEditIsInvisible(lib: Library, req: Request, store: Option<StateStore>)
    requires Accepted(lib, req) && DesiredSpec(lib, req).Success?
    requires ValidateStateStore(store) == [] && UrlIsSet(store, req.env)
    requires StoreEnv(store, req.env) != StoreEnv(req.cfg.stateStore, req.env)
    ensures
      var edited := req.(cfg := req.cfg.(stateStore := store));
      && Accepted(lib, edited) && DesiredSpec(lib, edited).Success?
      && SameHashes(lib, req, edited) && NameOf(lib, req) == NameOf(lib, edited)
      && DesiredSpec(lib, edited) != DesiredSpec(lib, req)
  {
    hide Accepted, DesiredSpec, NameOf, SameHashes, PackUriOf, ValidateStateStore, UrlIsSet, StoreEnv;
    UnhashedEditIsInvisible(lib, req, req.cfg.azureEndpoint, store);
    assert Edited(req, req.cfg.azureEndpoint, store) == req.(cfg := req.cfg.(stateStore := store));
  }
}
