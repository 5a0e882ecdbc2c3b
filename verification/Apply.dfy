/**
 The apply operation: stage the pack, create the agent once, create a version
 when something moved, and serve it once it is active. The state to record is
 returned wherever the sequence stops.
 */
module Apply {
  import opened Wrappers
  import opened AdapterState
  import opened AgentSpecs
  import opened BlobUri
  import opened ControlPlane
  import opened DeployConfig
  import opened Requests

  /** How the environment answers the calls one apply can make, each at most once. */
  datatype Answers = Answers(connected: bool, stage: Fate, agent: Fate, version: VersionReply, serve: Fate)

  /** An answer to every call that lets the apply run to its end. */
  predicate AllGood(a: Answers) {
    && a.connected && a.stage.Delivered? && a.agent.Delivered? && a.serve.Delivered?
    && a.version.Replied? && a.version.status == STATUS_ACTIVE
  }

  datatype ApplyInput = ApplyInput(
    spec: AgentSpec, agentName: string, packHash: string, configHash: string, stagedPackUri: string,
    protocols: seq<string>)

  datatype ApplyError =
    | RequestRejected(cause: RequestError)
    | NotConnected
    | NotStaged
    | SpecRejected(reason: SpecError)
    | AgentNotCreated
    | VersionNotCreated
    | NotServed

  /** What one apply leaves behind: the plane, the state to record if any, and its error. */
  datatype Outcome = Outcome(plane: Plane, state: State, err: Option<ApplyError>)

  datatype ApplyResult = ApplyResult(plane: Plane, out: RawState, err: Option<ApplyError>)

  /** The version an apply asks for, labelled with its own hashes. */
  function Wanted(x: ApplyInput): VersionRecord {
    VersionRecord(x.spec, x.packHash, x.configHash)
  }

  /** What makes a version necessary: one pending, none served, or a hash that moved. */
  predicate VersionNeeded(x: ApplyInput, s: State) {
    || s.inFlight.Some?
    || s.servedVersion == ""
    || s.packHash != x.packHash
    || s.configHash != x.configHash
  }

  function Stamped(lib: Library, x: ApplyInput, prior: State): State {
    prior.(version := STATE_VERSION, adapterVersion := lib.adapterVersion, stagedPackUri := x.stagedPackUri)
  }

  /** The agent is created only when none is recorded. */
  function EnsureAgent(p: Plane, x: ApplyInput, s: State, fate: Fate): Outcome {
    if s.agentName != "" then Outcome(p, s, None)
    else if fate.Delivered? then Outcome(AgentCreated(p, x.spec, fate), s.(agentName := x.spec.name), None)
    else Outcome(AgentCreated(p, x.spec, fate), s, Some(AgentNotCreated))
  }

  /** Serve an active version, recording it only when the endpoint call is acknowledged. */
  function Serve(p: Plane, x: ApplyInput, s: State, version: string, fate: Fate): Outcome {
    var served := EndpointSet(p, x.agentName, version, x.protocols, fate);
    if !EndpointFate(p, x.agentName, fate).Delivered? then Outcome(served, s, Some(NotServed))
    else Outcome(served, Recorded(s, version).(packHash := x.packHash, configHash := x.configHash), None)
  }

  function MakeVersion(p: Plane, x: ApplyInput, s: State, reply: VersionReply, fate: Fate): Outcome {
    var made := VersionCreated(p, x.agentName, Wanted(x), reply);
    if !reply.Replied? then Outcome(made, s, Some(VersionNotCreated))
    else if reply.status != STATUS_ACTIVE then
      Outcome(made, s.(inFlight := Some(InFlightVersion(reply.version, x.packHash, x.configHash))), None)
    else Serve(made, x, s.(inFlight := None), reply.version, fate)
  }

  function ApplyAgent(lib: Library, p: Plane, x: ApplyInput, prior: State, a: Answers): Outcome {
    var ensured := EnsureAgent(p, x, Stamped(lib, x, prior), a.agent);
    if ensured.err.Some? || !VersionNeeded(x, ensured.state) then ensured
    else MakeVersion(ensured.plane, x, ensured.state, a.version, a.serve)
  }

  // ------------------------------------------------------------- staging

  /** Whether the pack must be uploaded: never when inline, nor when the recorded name is its own. */
  predicate UploadNeeded(lib: Library, req: Request, prior: State) {
    PackUriOf(lib, req) != "" && prior.stagedPackUri != PackUriOf(lib, req)
  }

  function Stage(lib: Library, p: Plane, req: Request, prior: State, fate: Fate): Plane {
    if UploadNeeded(lib, req, prior) then ObjectStaged(p, PackUriOf(lib, req), req.pack, fate) else p
  }

  function InputFor(lib: Library, req: Request, spec: AgentSpec): ApplyInput
    requires Accepted(lib, req)
  {
    ApplyInput(spec, NameOf(lib, req), PackHash(lib, req), ConfigHash(lib, req), PackUriOf(lib, req), req.cfg.protocols)
  }

  /** The whole operation. Failures before the sequence starts record nothing. */
  function ApplyRequest(lib: Library, p: Plane, req: Request, stored: RawState, a: Answers): ApplyResult {
    match Gather(lib, req, stored)
    case Failure(e) => ApplyResult(p, Absent, Some(RequestRejected(e)))
    case Success(c) =>
      if !a.connected then ApplyResult(p, Absent, Some(NotConnected))
      else
        var staged := Stage(lib, p, req, c.prior, a.stage);
        if UploadNeeded(lib, req, c.prior) && !a.stage.Delivered? then ApplyResult(staged, Absent, Some(NotStaged))
        else
          match DesiredSpec(lib, req)
          case Failure(e) => ApplyResult(staged, Absent, Some(SpecRejected(e)))
          case Success(spec) =>
            var o := ApplyAgent(lib, staged, InputFor(lib, req, spec), c.prior, a);
            ApplyResult(o.plane, Doc(Obj(Encode(o.state))), o.err)
  }

  /** The plane a dry run starts from, a new one for every operation, and how it answers. */
  const EMPTY_PLANE := Plane(map[], map[], NoCalls)
  const DRY_ANSWERS := Answers(true, Delivered, Delivered, Replied("1", STATUS_ACTIVE), Delivered)

  // ------------------------------------------------------------- the code

  method StagePack(lib: Library, client: Client, req: Request, c: PlanContext, fate: Fate)
      returns (uri: string, ok: bool)
    requires c.delivery == DecidePackDelivery(req.pack, req.cfg) && c.cfg == req.cfg
    requires c.packHash == PackHash(lib, req) && Deliverable(c.delivery, c.cfg)
    modifies client
    ensures client.plane == Stage(lib, old(client.plane), req, c.prior, fate)
    ensures ok == (!UploadNeeded(lib, req, c.prior) || fate.Delivered?)
    ensures ok ==> uri == PackUriOf(lib, req)
  {
    if c.delivery.inline {
      return "", true;
    }
    uri := StagedPackUri(c.cfg.stagingContainer, c.packHash);
    if c.prior.stagedPackUri == uri {
      return uri, true;
    }
    ok := client.StageObject(uri, req.pack, fate);
  }

  method EnsureAgentStep(client: Client, x: ApplyInput, state: StateRecord, fate: Fate) returns (err: Option<ApplyError>)
    modifies client, state`agentName
    ensures Outcome(client.plane, state.View(), err) == EnsureAgent(old(client.plane), x, old(state.View()), fate)
  {
    if state.agentName != "" {
      return None;
    }
    var ok := client.CreateAgent(x.spec, fate);
    if !ok {
      return Some(AgentNotCreated);
    }
    state.agentName := x.spec.name;
    err := None;
  }

  /** The second half of applyAgent: a version, and the endpoint once it is active. */
  method MakeVersionSteps(client: Client, x: ApplyInput, state: StateRecord, reply: VersionReply, fate: Fate)
      returns (err: Option<ApplyError>)
    modifies client, state
    ensures Outcome(client.plane, state.View(), err) == MakeVersion(old(client.plane), x, old(state.View()), reply, fate)
  {
    client.CreateVersion(x.agentName, Wanted(x), reply);
    if !reply.Replied? {
      return Some(VersionNotCreated);
    }
    if reply.status != STATUS_ACTIVE {
      state.inFlight := Some(InFlightVersion(reply.version, x.packHash, x.configHash));
      return None;
    }
    state.inFlight := None;

    var served := client.SetEndpoint(x.agentName, reply.version, x.protocols, fate);
    if !served {
      return Some(NotServed);
    }
    state.RecordVersion(reply.version);
    state.packHash := x.packHash;
    state.configHash := x.configHash;
    err := None;
  }

  method ApplyAgentSteps(lib: Library, client: Client, x: ApplyInput, prior: State, a: Answers)
      returns (state: StateRecord, err: Option<ApplyError>)
    modifies client
    ensures fresh(state)
    ensures Outcome(client.plane, state.View(), err) == ApplyAgent(lib, old(client.plane), x, prior, a)
  {
    state := new StateRecord(prior);
    state.version := STATE_VERSION;
    state.adapterVersion := lib.adapterVersion;
    state.stagedPackUri := x.stagedPackUri;

    err := EnsureAgentStep(client, x, state, a.agent);
    if err.Some? {
      return;
    }
    if !VersionNeeded(x, state.View()) {
      return state, None;
    }
    err := MakeVersionSteps(client, x, state, a.version, a.serve);
  }

  method ApplyOperation(lib: Library, client: Client, req: Request, stored: RawState, a: Answers)
      returns (out: RawState, err: Option<ApplyError>)
    modifies client
    ensures ApplyResult(client.plane, out, err) == ApplyRequest(lib, old(client.plane), req, stored, a)
  {
    var gathered := Gather(lib, req, stored);
    if gathered.Failure? {
      return Absent, Some(RequestRejected(gathered.error));
    }
    if !a.connected {
      return Absent, Some(NotConnected);
    }
    var c := gathered.value;
    GatherSplits(lib, req, stored);
    var uri, ok := StagePack(lib, client, req, c, a.stage);
    if !ok {
      return Absent, Some(NotStaged);
    }
    var spec := BuildAgentSpec(
      lib, SpecInput(c.cfg, c.agentName, c.packId, req.pack, c.bindings, c.delivery, uri, c.toolSpecs), req.env);
    if spec.Failure? {
      return Absent, Some(SpecRejected(spec.error));
    }
    var next;
    next, err := ApplyAgentSteps(
      lib, client,
      ApplyInput(spec.value, c.agentName, c.packHash, c.configHash, uri, c.cfg.protocols), c.prior, a);
    var encoded := next.Marshal();
    out := Doc(Obj(encoded));
  }
}
