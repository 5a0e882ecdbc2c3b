/**
 Applying again: when a second apply is silent, what silence means for the
 version being served, and a state from which no apply ever recovers.
 */
module Convergence {
  import opened Wrappers
  import opened AdapterState
  import opened AgentSpecs
  import opened Apply
  import opened ControlPlane
  import opened DeployConfig
  import opened Requests
  import opened Runs

  /** Nothing to upload, create, version or serve. */
  predicate Settled(lib: Library, req: Request, s: State)
    requires Accepted(lib, req)
  {
    && s.agentName != ""
    && !UploadNeeded(lib, req, s)
    && s.inFlight.None? && s.servedVersion != ""
    && s.packHash == PackHash(lib, req) && s.configHash == ConfigHash(lib, req)
  }

  function Calls(log: CallLog): nat {
    match log
    case NoCalls => 0
    case Then(earlier, call) => Calls(earlier) + if call.Boundary? then 0 else 1
  }

  lemma MakeVersionCalls(p: Plane, x: ApplyInput, s: State, reply: VersionReply, fate: Fate)
    ensures Calls(MakeVersion(p, x, s, reply, fate).plane.log) > Calls(p.log)
  {
    var made := VersionCreated(p, x.agentName, Wanted(x), reply);
    assert Calls(made.log) == Calls(p.log) + 1;
    if reply.Replied? {
      assert Calls(EndpointSet(made, x.agentName, reply.version, x.protocols, fate).log) == Calls(made.log) + 1;
    }
  }

  lemma ApplyAgentCalls(lib: Library, p: Plane, x: ApplyInput, prior: State, a: Answers)
    ensures Calls(ApplyAgent(lib, p, x, prior, a).plane.log) >= Calls(p.log)
    ensures prior.agentName == "" || VersionNeeded(x, prior) ==>
              Calls(ApplyAgent(lib, p, x, prior, a).plane.log) > Calls(p.log)
  {
    var ensured := EnsureAgent(p, x, Stamped(lib, x, prior), a.agent);
    if ensured.err.None? && VersionNeeded(x, ensured.state) {
      MakeVersionCalls(ensured.plane, x, ensured.state, a.version, a.serve);
    }
  }

  /**
   An apply that gets as far as talking to the plane is silent exactly when the
   recorded state is settled for its request.
   */
  lemma SilentExactlyWhenSettled(lib: Library, p: Plane, req: Request, stored: RawState, a: Answers)
    requires Accepted(lib, req) && DesiredSpec(lib, req).Success? && Decode(stored).Success? && a.connected
    ensures
      var r := ApplyRequest(lib, p, req, stored, a);
      && (Calls(r.plane.log) == Calls(p.log) <==> Settled(lib, req, Decode(stored).value))
      && (Settled(lib, req, Decode(stored).value) ==> r.plane == p && r.err.None?)
  {
    hide Gather, Accepted, DesiredSpec, ApplyAgent, NameOf, PackUriOf, Encode, Decode;
    GatherSplits(lib, req, stored);
    Submitted(lib, p, req, stored, a);
    var prior, x := Decode(stored).value, InputFor(lib, req, DesiredSpec(lib, req).value);
    ApplyAgentCalls(lib, Stage(lib, p, req, prior, a.stage), x, prior, a);
    if Settled(lib, req, prior) {
      SettledStops(lib, p, x, prior, a);
    }
  }

  /** What the operation amounts to once its request and connection are good. */
  lemma Submitted(lib: Library, p: Plane, req: Request, stored: RawState, a: Answers)
    requires Accepted(lib, req) && DesiredSpec(lib, req).Success? && Decode(stored).Success? && a.connected
    ensures
      var prior, x := Decode(stored).value, InputFor(lib, req, DesiredSpec(lib, req).value);
      var staged := Stage(lib, p, req, prior, a.stage);
      var o := ApplyAgent(lib, staged, x, prior, a);
      ApplyRequest(lib, p, req, stored, a) ==
        if UploadNeeded(lib, req, prior) && !a.stage.Delivered? then ApplyResult(staged, Absent, Some(NotStaged))
        else ApplyResult(o.plane, Doc(Obj(Encode(o.state))), o.err)
  {
    hide Decode, DesiredSpec, ApplyAgent, Stage, UploadNeeded, Encode, InputFor;
    GatherSplits(lib, req, stored);
  }

  // ------------------------------------------------- what an apply reports

  /** A version is necessary for these inputs. */
  predicate Needs(x: ApplyInput, prior: State) {
    || prior.inFlight.Some? || prior.servedVersion == ""
    || prior.packHash != x.packHash || prior.configHash != x.configHash
  }

  /** The agent the endpoint call addresses is on the plane by then. */
  predicate OnPlane(p: Plane, x: ApplyInput, prior: State) {
    x.agentName in p.agents || (prior.agentName == "" && x.spec.name == x.agentName)
  }

  /**
   What the sequence reports, for every state, plane and answer: the first call
   to fail, and success otherwise; in particular a version that is created but
   not active yet is a success, recorded as in flight under its own hashes. What
   it records always carries its own schema version, release, pack location and
   the preserved unknowns.
   */
  lemma SequenceReports(lib: Library, p: Plane, x: ApplyInput, prior: State, a: Answers)
    ensures
      var o := ApplyAgent(lib, p, x, prior, a);
      var s, reply := o.state, a.version;
      var hasAgent := prior.agentName != "" || a.agent.Delivered?;
      && o.err == (if !hasAgent then Some(AgentNotCreated)
                   else if !Needs(x, prior) then None
                   else if !reply.Replied? then Some(VersionNotCreated)
                   else if reply.status != "active" then None
                   else if a.serve.Delivered? && OnPlane(p, x, prior) then None
                   else Some(NotServed))
      && s.version == 1 && s.adapterVersion == lib.adapterVersion && s.stagedPackUri == x.stagedPackUri
      && s.unknown == prior.unknown
      && s.agentName == (if prior.agentName != "" then prior.agentName
                         else if a.agent.Delivered? then x.spec.name else "")
      && (hasAgent && Needs(x, prior) && reply.Replied? ==>
            if reply.status != "active" then
              && s.inFlight == Some(InFlightVersion(reply.version, x.packHash, x.configHash))
              && s.servedVersion == prior.servedVersion && s.priorVersions == prior.priorVersions
              && s.packHash == prior.packHash && s.configHash == prior.configHash
            else
              && s.inFlight.None?
              && (o.err.None? ==>
                    s.servedVersion == reply.version && s.packHash == x.packHash && s.configHash == x.configHash)
              && (o.err.Some? ==> s.servedVersion == prior.servedVersion && s.packHash == prior.packHash
                                  && s.configHash == prior.configHash))
      && (!hasAgent || !Needs(x, prior) || !reply.Replied? ==>
            s.inFlight == prior.inFlight && s.servedVersion == prior.servedVersion
            && s.packHash == prior.packHash && s.configHash == prior.configHash)
  {
  }

  /**
   What the whole operation reports, in the order it can fail, and whether there
   is a state to record: none exactly when the sequence was not reached.
   */
  lemma ApplyReports(lib: Library, p: Plane, req: Request, stored: RawState, a: Answers)
    ensures
      var r, gathered := ApplyRequest(lib, p, req, stored, a), Gather(lib, req, stored);
      if gathered.Failure? then r == ApplyResult(p, Absent, Some(RequestRejected(gathered.error)))
      else if !a.connected then r == ApplyResult(p, Absent, Some(NotConnected))
      else
        var prior, uri := gathered.value.prior, PackUriOf(lib, req);
        var uploads := uri != "" && prior.stagedPackUri != uri;
        if uploads && !a.stage.Delivered? then r.out.Absent? && r.err == Some(NotStaged) && r.plane.agents == p.agents
        else if !UrlIsSet(req.cfg.stateStore, req.env) then
          r.out.Absent? && r.err == Some(SpecRejected(StoreUrlUnset)) && r.plane.agents == p.agents
        else
          && r.out.Doc?
          && (r.err.None? <==>
                && (prior.agentName != "" || a.agent.Delivered?)
                && (prior.inFlight.Some? || prior.servedVersion == "" || prior.packHash != PackHash(lib, req)
                    || prior.configHash != ConfigHash(lib, req) ==>
                      && a.version.Replied?
                      && (a.version.status == "active" ==>
                            a.serve.Delivered? && (prior.agentName == "" || NameOf(lib, req) in p.agents))))
          && (r.err.Some? ==> r.err.value in {AgentNotCreated, VersionNotCreated, NotServed})
  {
    hide Decode, DesiredSpec, ApplyAgent, Stage, Encode, Gather, NameOf, PackHash, ConfigHash, PackUriOf, UrlIsSet;
    GatherSplits(lib, req, stored);
    if Gather(lib, req, stored).Success? {
      BuiltExactly(lib, req);
      var prior := Decode(stored).value;
      StageKeepsAgents(lib, p, req, prior, a.stage);
      if DesiredSpec(lib, req).Success? && a.connected {
        Submitted(lib, p, req, stored, a);
        var x := InputFor(lib, req, DesiredSpec(lib, req).value);
        OriginOf(lib, req, x.spec);
        SequenceReports(lib, Stage(lib, p, req, prior, a.stage), x, prior, a);
      }
    }
  }

  /** A state settled for two requests: they agree on everything a hash covers. */
  lemma SettledForBoth(lib: Library, a: Request, b: Request, s: State)
    requires Accepted(lib, a) && Accepted(lib, b) && Sound(lib) && Distinguished(lib, a, b)
    requires Settled(lib, a, s)
    ensures Settled(lib, b, s) <==> SameHashedInputs(a, b) && !UploadNeeded(lib, b, s)
  {
    hide Accepted, Sound, Distinguished, SameHashedInputs, UploadNeeded;
    HashesDetermine(lib, a, b);
  }

  lemma SettledStops(lib: Library, p: Plane, x: ApplyInput, prior: State, a: Answers)
    requires prior.agentName != "" && !VersionNeeded(x, prior)
    ensures ApplyAgent(lib, p, x, prior, a) == Outcome(p, Stamped(lib, x, prior), None)
  {
  }

  /** What a successful sequence with nothing in flight has recorded. */
  lemma ApplyAgentSettles(lib: Library, p: Plane, x: ApplyInput, prior: State, a: Answers)
    requires var o := ApplyAgent(lib, p, x, prior, a); o.err.None? && o.state.inFlight.None?
    requires x.spec.name != "" && (a.version.Replied? ==> a.version.version != "")
    ensures
      var s := ApplyAgent(lib, p, x, prior, a).state;
      && s.agentName != "" && !VersionNeeded(x, s) && s.stagedPackUri == x.stagedPackUri && Stamped(lib, x, s) == s
      && (Valid(prior) ==> Valid(s))
  {
  }

  /**
   Convergence. When an apply succeeds and leaves nothing in flight, applying
   the same request to the state it returned, written and parsed again, makes
   no call at all, uploads included, and returns an equal state.
   */
  lemma Converges(lib: Library, p: Plane, req: Request, stored: RawState, a: Answers, again: Answers)
    requires
      var r := ApplyRequest(lib, p, req, stored, a);
      r.err.None? && (Decode(r.out).Success? ==> Decode(r.out).value.inFlight.None?)
    requires a.version.Replied? ==> a.version.version != ""
    requires again.connected
    ensures
      var r := ApplyRequest(lib, p, req, stored, a);
      ApplyRequest(lib, r.plane, req, r.out, again) == ApplyResult(r.plane, r.out, None)
  {
    hide Decode, DesiredSpec, ApplyAgent, Stage, Encode, IsOrigin, Valid;
    GatherSplits(lib, req, stored);
    Submitted(lib, p, req, stored, a);
    NamesAreNotEmpty(lib, req);
    var prior, x := Decode(stored).value, InputFor(lib, req, DesiredSpec(lib, req).value);
    OriginOf(lib, req, x.spec);
    var o := ApplyAgent(lib, Stage(lib, p, req, prior, a.stage), x, prior, a);
    DecodedIsValid(stored);
    KeepsValid(lib, Stage(lib, p, req, prior, a.stage), x, prior, a);
    StateRoundTrip(o.state);
    ApplyAgentSettles(lib, Stage(lib, p, req, prior, a.stage), x, prior, a);
    SettledStops(lib, o.plane, x, o.state, again);
    Submitted(lib, o.plane, req, Doc(Obj(Encode(o.state))), again);
    NoStage(lib, o.plane, req, o.state, again.stage);
  }

  lemma NoStage(lib: Library, p: Plane, req: Request, s: State, fate: Fate)
    requires s.stagedPackUri == PackUriOf(lib, req)
    ensures Stage(lib, p, req, s, fate) == p && !UploadNeeded(lib, req, s)
  {
  }

  lemma KeepsValid(lib: Library, p: Plane, x: ApplyInput, prior: State, a: Answers)
    requires Valid(prior)
    ensures Valid(ApplyAgent(lib, p, x, prior, a).state)
  {
  }

  // ------------------------------------------------- what "up to date" means

  /**
   What an apply that finds nothing to do has recorded, over whole runs: a version
   created under its own hashes for the request of an earlier step, whose spec is
   the one this request would build exactly when the two also agree on the inputs
   no hash covers. This is the version being served exactly when no later
   endpoint call took effect unacknowledged.
   */
  lemma UpToDateRecords(lib: Library, name: string, sys: System, steps: seq<Step>, req: Request) returns (i: int)
    requires Untouched(name, sys) && LegalRun(lib, name, sys, steps) && name != "" && Sound(lib)
    requires Accepted(lib, req) && NameOf(lib, req) == name && DesiredSpec(lib, req).Success?
    requires forall j :: 0 <= j < |steps| ==> Distinguished(lib, steps[j].req, req)
    requires Decode(Run(lib, sys, steps).stored).Success? ==> Settled(lib, req, FinalState(lib, sys, steps))
    ensures 0 <= i < |steps| && Accepted(lib, steps[i].req) && SameHashes(lib, steps[i].req, req)
    ensures Decode(Run(lib, sys, steps).stored).Success?
    ensures
      var s, p := FinalState(lib, sys, steps), Run(lib, sys, steps).plane;
      && name in p.agents && s.servedVersion in p.agents[name].versions
      && var v := p.agents[name].versions[s.servedVersion];
         && v.packHash == PackHash(lib, req) && v.configHash == ConfigHash(lib, req)
         && DesiredSpec(lib, steps[i].req) == Success(v.spec)
         && (DesiredSpec(lib, req) == Success(v.spec) <==> SameUnhashedInputs(lib, steps[i].req, req))
         && (s.servedVersion == p.agents[name].served <==> !Observe(p.log).unacknowledged)
  {
    hide Run, Decode, DesiredSpec, SameUnhashedInputs, Observe, LegalRun, NameOf, Accepted, PackHash, ConfigHash;
    ServedHashes(lib, name, sys, steps);
    WholeRunSafety(lib, name, sys, steps);
    var s, p := FinalState(lib, sys, steps), Run(lib, sys, steps).plane;
    var v := p.agents[name].versions[s.servedVersion];
    i :| 0 <= i < |steps| && IsOrigin(lib, steps[i].req, v);
    assert Distinguished(lib, steps[i].req, req);
    FingerprintNoninterference(lib, steps[i].req, req);
  }

  /**
   What such an apply leaves serving, over whole runs: a version created for the
   real request of some step, and this request's own exactly so far as it agrees
   with that step's, on the hashes and on the inputs no hash covers. The hashes
   are sure to agree unless the last endpoint call took effect unacknowledged.
   */
  lemma UpToDateServes(lib: Library, name: string, sys: System, steps: seq<Step>, req: Request) returns (k: int)
    requires Untouched(name, sys) && LegalRun(lib, name, sys, steps) && name != "" && Sound(lib)
    requires Accepted(lib, req) && NameOf(lib, req) == name && DesiredSpec(lib, req).Success?
    requires forall j :: 0 <= j < |steps| ==> Distinguished(lib, steps[j].req, req)
    requires Decode(Run(lib, sys, steps).stored).Success? ==> Settled(lib, req, FinalState(lib, sys, steps))
    ensures 0 <= k < |steps| && name in Run(lib, sys, steps).plane.agents
    ensures
      var p := Run(lib, sys, steps).plane;
      var live, origin := p.agents[name], steps[k].req;
      && live.served in live.versions
      && var v := live.versions[live.served];
         && IsOrigin(lib, origin, v)
         && (v.packHash == PackHash(lib, req) && v.configHash == ConfigHash(lib, req) <==> SameHashes(lib, origin, req))
         && (SameHashes(lib, origin, req) ==>
               (DesiredSpec(lib, req) == Success(v.spec) <==> SameUnhashedInputs(lib, origin, req)))
         && (!Observe(p.log).unacknowledged ==> SameHashes(lib, origin, req))
  {
    hide Run, Decode, DesiredSpec, SameUnhashedInputs, Observe, LegalRun, NameOf, Accepted, PackHash, ConfigHash;
    ServedHashes(lib, name, sys, steps);
    LiveProtocols(lib, name, sys, steps);
    WholeRunSafety(lib, name, sys, steps);
    var p := Run(lib, sys, steps).plane;
    var v := p.agents[name].versions[p.agents[name].served];
    k :| 0 <= k < |steps| && IsOrigin(lib, steps[k].req, v);
    assert Distinguished(lib, steps[k].req, req);
    if SameHashes(lib, steps[k].req, req) {
      FingerprintNoninterference(lib, steps[k].req, req);
    }
  }

  /**
   The unhashed inputs matter: after any first deploy that succeeds, editing
   azure_endpoint or state_store so that the container would see it, and applying
   again, makes no call and reports success, while the version being served is
   not the one the edited request asks for.
   */
  lemma UnhashedEditIsNeverDeployed(lib: Library, p: Plane, req: Request, endpoint: string, store: Option<StateStore>,
                                    a: Answers, again: Answers)
    requires Accepted(lib, req) && DesiredSpec(lib, req).Success?
    requires ValidateStateStore(store) == [] && UrlIsSet(store, req.env)
    requires || AzureEndpoint(Edited(req, endpoint, store).cfg) != AzureEndpoint(req.cfg)
             || StoreEnv(store, req.env) != StoreEnv(req.cfg.stateStore, req.env)
    requires NameOf(lib, req) !in p.agents && AllGood(a) && a.version.version != "" && again.connected
    ensures
      var edited, name := Edited(req, endpoint, store), NameOf(lib, req);
      var r := ApplyRequest(lib, p, req, Absent, a);
      && r.err.None? && Accepted(lib, edited)
      && ApplyRequest(lib, r.plane, edited, r.out, again) == ApplyResult(r.plane, r.out, None)
      && name in r.plane.agents
      && var live := r.plane.agents[name];
         live.served in live.versions && DesiredSpec(lib, edited) != Success(live.versions[live.served].spec)
  {
    hide Decode, DesiredSpec, Stage, Encode, IsOrigin, Gather, NameOf, PackHash, ConfigHash, PackUriOf;
    hide AzureEndpoint, StoreEnv, ValidateStateStore, UrlIsSet;
    var edited := Edited(req, endpoint, store);
    UnhashedEditIsInvisible(lib, req, endpoint, store);
    AbsentIsFresh();
    Submitted(lib, p, req, Absent, a);
    NamesAreNotEmpty(lib, req);
    var x := InputFor(lib, req, DesiredSpec(lib, req).value);
    OriginOf(lib, req, x.spec);
    var staged := Stage(lib, p, req, FRESH_STATE, a.stage);
    StageKeepsAgents(lib, p, req, FRESH_STATE, a.stage);
    var o := ApplyAgent(lib, staged, x, FRESH_STATE, a);
    StateRoundTrip(o.state);
    Submitted(lib, o.plane, edited, Doc(Obj(Encode(o.state))), again);
    NoStage(lib, o.plane, edited, o.state, again.stage);
    SettledStops(lib, o.plane, InputFor(lib, edited, DesiredSpec(lib, edited).value), o.state, again);
  }

  /** For the endpoint alone, be it another one or none. */
  lemma EndpointEditIsNeverDeployed(lib: Library, p: Plane, req: Request, endpoint: string, a: Answers, again: Answers)
    requires Accepted(lib, req) && DesiredSpec(lib, req).Success?
    requires AzureEndpoint(req.cfg.(azureEndpoint := endpoint)) != AzureEndpoint(req.cfg)
    requires NameOf(lib, req) !in p.agents && AllGood(a) && a.version.version != "" && again.connected
    ensures
      var edited, name := req.(cfg := req.cfg.(azureEndpoint := endpoint)), NameOf(lib, req);
      var r := ApplyRequest(lib, p, req, Absent, a);
      && r.err.None? && Accepted(lib, edited)
      && ApplyRequest(lib, r.plane, edited, r.out, again) == ApplyResult(r.plane, r.out, None)
      && name in r.plane.agents
      && var live := r.plane.agents[name];
         live.served in live.versions && DesiredSpec(lib, edited) != Success(live.versions[live.served].spec)
  {
    hide Accepted, DesiredSpec, NameOf, ApplyRequest, ValidateStateStore, UrlIsSet, StoreEnv;
    OwnStoreIsGood(lib, req);
    UnhashedEditIsNeverDeployed(lib, p, req, endpoint, req.cfg.stateStore, a, again);
    assert Edited(req, endpoint, req.cfg.stateStore) == req.(cfg := req.cfg.(azureEndpoint := endpoint));
  }

  lemma AbsentIsFresh()
    ensures Decode(Absent) == Success(FRESH_STATE)
  {
  }

  lemma StageKeepsAgents(lib: Library, p: Plane, req: Request, s: State, fate: Fate)
    ensures Stage(lib, p, req, s, fate).agents == p.agents
    ensures Observe(Stage(lib, p, req, s, fate).log).created == Observe(p.log).created
  {
  }

  // ------------------------------------------------- no way back

  /** A state that records some agent while the name in use has none on the plane. */
  ghost predicate Stranded(name: string, agents: map<string, AgentRecord>, p: Plane, s: State) {
    p.agents == agents && name !in agents && Valid(s) && s.agentName != ""
  }

  lemma StrandedApplyAgent(lib: Library, name: string, p: Plane, x: ApplyInput, prior: State, a: Answers)
    requires Stranded(name, p.agents, p, prior) && x.agentName == name
    ensures var o := ApplyAgent(lib, p, x, prior, a);
            && Stranded(name, p.agents, o.plane, o.state)
            && o.state.agentName == prior.agentName && o.state.servedVersion == prior.servedVersion
  {
  }

  lemma StrandedMakesNoAgentCall(lib: Library, p: Plane, x: ApplyInput, prior: State, a: Answers)
    requires prior.agentName != ""
    ensures Observe(ApplyAgent(lib, p, x, prior, a).plane.log).created == Observe(p.log).created
  {
    var s := Stamped(lib, x, prior);
    if VersionNeeded(x, s) {
      var made := VersionCreated(p, x.agentName, Wanted(x), a.version);
      assert Observe(made.log).created == Observe(p.log).created;
    }
  }

  lemma StrandedApply(lib: Library, name: string, p: Plane, req: Request, stored: RawState, a: Answers)
    requires Decode(stored).Success? && Decode(stored).value.agentName != "" && name !in p.agents
    requires Accepted(lib, req) ==> NameOf(lib, req) == name
    ensures
      var r := ApplyRequest(lib, p, req, stored, a);
      && r.plane.agents == p.agents
      && Decode(HeldAfter(r, stored)).Success?
      && var s, s0 := Decode(HeldAfter(r, stored)).value, Decode(stored).value;
         s.agentName == s0.agentName && s.servedVersion == s0.servedVersion
  {
    hide Decode, ApplyAgent, Gather, NameOf, Encode, Valid, Stage, DesiredSpec, PackUriOf, UploadNeeded;
    var prior := Decode(stored).value;
    DecodedIsValid(stored);
    GatherSplits(lib, req, stored);
    if Accepted(lib, req) && a.connected {
      var staged := Stage(lib, p, req, prior, a.stage);
      StageKeepsAgents(lib, p, req, prior, a.stage);
      if DesiredSpec(lib, req).Success? {
        var x := InputFor(lib, req, DesiredSpec(lib, req).value);
        StrandedApplyAgent(lib, name, staged, x, prior, a);
        StateRoundTrip(ApplyAgent(lib, staged, x, prior, a).state);
      }
    }
  }

  /**
   Apply trusts the recorded agent name without looking. If that agent is gone,
   or the pack id was changed so that another name is addressed, no run of
   applies, dry or not, ever creates an agent or serves a version again.
   */
  lemma {:induction false} StrandedForever(lib: Library, name: string, sys: System, steps: seq<Step>)
    requires Decode(sys.stored).Success? && Decode(sys.stored).value.agentName != "" && name !in sys.plane.agents
    requires forall i :: 0 <= i < |steps| && Accepted(lib, steps[i].req) ==> NameOf(lib, steps[i].req) == name
    ensures Run(lib, sys, steps).plane.agents == sys.plane.agents
    ensures Decode(Run(lib, sys, steps).stored).Success?
    ensures
      var s, s0 := FinalState(lib, sys, steps), Decode(sys.stored).value;
      s.agentName == s0.agentName && s.servedVersion == s0.servedVersion
  {
    hide Decode, ApplyRequest, NameOf, Accepted;
    if steps != [] {
      var earlier, last := steps[..|steps| - 1], steps[|steps| - 1];
      StrandedForever(lib, name, sys, earlier);
      var before := Run(lib, sys, earlier);
      if last.req.cfg.dryRun {
        StrandedApply(lib, name, EMPTY_PLANE, last.req, before.stored, DRY_ANSWERS);
      } else {
        StrandedApply(lib, name, Marked(before.plane, false), last.req, before.stored, last.answers);
      }
    }
  }

  // ------------------------------------------------- versions left behind

  /** A step whose apply reaches the version call, and whose version does not come back active. */
  ghost predicate Stalls(lib: Library, name: string, p: Plane, step: Step) {
    var a := step.answers;
    && Accepted(lib, step.req) && NameOf(lib, step.req) == name && DesiredSpec(lib, step.req).Success?
    && !step.req.cfg.dryRun && a.connected && a.stage.Delivered?
    && !a.version.NotCreated? && !(a.version.Replied? && a.version.status == STATUS_ACTIVE)
    && FreshReply(p, a.version)
  }

  ghost predicate AllStall(lib: Library, name: string, sys: System, steps: seq<Step>) {
    steps != [] ==>
      && AllStall(lib, name, sys, steps[..|steps| - 1])
      && Stalls(lib, name, Run(lib, sys, steps[..|steps| - 1]).plane, steps[|steps| - 1])
  }

  /** Nothing served yet, or a version in flight: the next apply needs a version whatever its hashes. */
  predicate Unsettled(name: string, s: State) {
    s.agentName == name && (s.servedVersion == "" || s.inFlight.Some?)
  }

  lemma StalledApplyAgent(lib: Library, name: string, p: Plane, x: ApplyInput, prior: State, a: Answers)
    requires Unsettled(name, prior) && name != "" && x.agentName == name
    requires !a.version.NotCreated? && !(a.version.Replied? && a.version.status == STATUS_ACTIVE)
    ensures
      var o := ApplyAgent(lib, p, x, prior, a);
      && Unsettled(name, o.state) && o.state.servedVersion == prior.servedVersion
      && Observe(o.plane.log).issued == Observe(p.log).issued + {a.version.version}
      && Observe(o.plane.log).selector == Observe(p.log).selector
      && (name in p.agents ==>
            && name in o.plane.agents
            && var was := p.agents[name];
               o.plane.agents[name] == was.(versions := was.versions[a.version.version := Wanted(x)]))
  {
  }

  lemma StageIsNotObserved(lib: Library, p: Plane, req: Request, s: State, fate: Fate)
    ensures
      var o, o' := Observe(p.log), Observe(Stage(lib, p, req, s, fate).log);
      o'.issued == o.issued && o'.selector == o.selector && Stage(lib, p, req, s, fate).agents == p.agents
  {
  }

  lemma MarkIsNotObserved(p: Plane)
    ensures
      var o, o' := Observe(p.log), Observe(Marked(p, false).log);
      o'.issued == o.issued && o'.selector == o.selector && Marked(p, false).agents == p.agents
  {
  }

  /** The agent is there, and has only versions whose ids the plane has handed out, as after every legal run. */
  predicate HoldsIssued(name: string, p: Plane) {
    name in p.agents && p.agents[name].versions.Keys <= Observe(p.log).issued
  }

  lemma OneMoreVersion(versions: map<string, VersionRecord>, v: string, made: VersionRecord)
    requires v !in versions
    ensures versions[v := made].Keys == versions.Keys + {v}
    ensures |versions[v := made].Keys| == |versions.Keys| + 1
  {
    assert versions[v := made].Keys == versions.Keys + {v};
  }

  /**
   A version that is not active yet, or whose creation was reported as failed,
   is never looked up again: every further apply creates one more version, which
   stays on the agent, and as long as none comes back active the endpoint and the
   served version stay as they were.
   */
  lemma {:induction false} StalledVersionsPileUp(lib: Library, name: string, sys: System, steps: seq<Step>)
    requires Decode(sys.stored).Success? && Unsettled(name, Decode(sys.stored).value) && name != ""
    requires AllStall(lib, name, sys, steps)
    ensures Decode(Run(lib, sys, steps).stored).Success?
    ensures
      var o, o0 := Observe(Run(lib, sys, steps).plane.log), Observe(sys.plane.log);
      && |o.issued| == |o0.issued| + |steps|
      && o.selector == o0.selector
      && Unsettled(name, FinalState(lib, sys, steps))
      && FinalState(lib, sys, steps).servedVersion == Decode(sys.stored).value.servedVersion
      && Valid(FinalState(lib, sys, steps))
    ensures HoldsIssued(name, sys.plane) ==>
              var p := Run(lib, sys, steps).plane;
              && HoldsIssued(name, p)
              && |p.agents[name].versions.Keys| == |sys.plane.agents[name].versions.Keys| + |steps|
              && p.agents[name].served == sys.plane.agents[name].served
  {
    hide Decode, ApplyAgent, ApplyRequest, Accepted, NameOf, Encode, Valid, Stage, DesiredSpec;
    hide Unsettled, Observe, Marked;
    if steps == [] {
      DecodedIsValid(sys.stored);
    } else {
      var earlier, last := steps[..|steps| - 1], steps[|steps| - 1];
      StalledVersionsPileUp(lib, name, sys, earlier);
      var before := Run(lib, sys, earlier);
      var prior, p := Decode(before.stored).value, Marked(before.plane, false);
      MarkIsNotObserved(before.plane);
      Submitted(lib, p, last.req, before.stored, last.answers);
      var staged := Stage(lib, p, last.req, prior, last.answers.stage);
      StageIsNotObserved(lib, p, last.req, prior, last.answers.stage);
      var x := InputFor(lib, last.req, DesiredSpec(lib, last.req).value);
      StalledApplyAgent(lib, name, staged, x, prior, last.answers);
      if HoldsIssued(name, sys.plane) {
        OneMoreVersion(before.plane.agents[name].versions, last.answers.version.version, Wanted(x));
      }
      KeepsValid(lib, staged, x, prior, last.answers);
      StateRoundTrip(ApplyAgent(lib, staged, x, prior, last.answers).state);
    }
  }
}
