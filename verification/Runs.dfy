/**
 Whole runs of applies: any number of requests for one pack id, dry runs among
 them, any fate for every call, the recorded state written and parsed between
 operations. What the state records is compared with what an observer reads off
 the call log.
 */
module Runs {
  import opened Wrappers
  import opened AdapterState
  import opened AgentSpecs
  import opened Apply
  import opened ControlPlane
  import opened Requests

  // ------------------------------------------------- reading the call log

  /** What an observer of the wire knows, without looking at any recorded state. */
  datatype Observed = Observed(
    created: nat,               // acknowledged agent creations
    made: bool,                 // some creation took effect, acknowledged or not
    served: seq<string>,        // versions whose endpoint call was acknowledged, newest first
    selector: string,           // where the endpoint points: the last endpoint call that took effect
    unacknowledged: bool,       // that call took effect but was reported as an error
    issued: set<string>,        // version ids handed out
    pending: Option<string>,    // the last version reply, if not active and no dry run has returned since
    lastActive: Option<string>, // the version the preceding call of the same apply reported active
    ordered: bool,              // every endpoint call followed such a report of its own version
    names: set<string>)         // agents addressed

  const NOTHING_SEEN := Observed(0, false, [], "", false, {}, None, None, true, {})

  function Seen(o: Observed, call: Call): Observed {
    match call
    case Boundary(dry) => o.(lastActive := None, pending := if dry then None else o.pending)
    case AgentCall(name, fate) =>
      o.(created := if fate.Delivered? then o.created + 1 else o.created,
         made := o.made || !fate.Refused?,
         lastActive := None, names := o.names + {name})
    case VersionCall(name, reply) =>
      o.(issued := if reply.NotCreated? then o.issued else o.issued + {reply.version},
         pending := if !reply.Replied? then o.pending
                    else if reply.status == STATUS_ACTIVE then None else Some(reply.version),
         lastActive := if reply.Replied? && reply.status == STATUS_ACTIVE then Some(reply.version) else None,
         names := o.names + {name})
    case EndpointCall(name, version, fate) =>
      o.(served := if fate.Delivered? then [version] + o.served else o.served,
         selector := if fate.Refused? then o.selector else version,
         unacknowledged := if fate.Refused? then o.unacknowledged else fate.LostReply?,
         ordered := o.ordered && o.lastActive == Some(version),
         lastActive := None, names := o.names + {name})
    case StageCall(_, _) => o.(lastActive := None)
    case DeleteCall(name, fate) =>
      o.(made := o.made && fate.Refused?, selector := if fate.Refused? then o.selector else "",
         lastActive := None, names := o.names + {name})
  }

  function Observe(log: CallLog): Observed {
    match log
    case NoCalls => NOTHING_SEEN
    case Then(earlier, last) => Seen(Observe(earlier), last)
  }

  // ------------------------------------------------- runs

  datatype Step = Step(req: Request, answers: Answers)

  datatype System = System(plane: Plane, stored: RawState)

  /** The caller keeps the state it has when an operation returns none. */
  function HeldAfter(r: ApplyResult, stored: RawState): RawState {
    if r.out.Absent? then stored else r.out
  }

  /** A dry run talks to a plane of its own, yet its state is returned to the caller too. */
  function Driven(lib: Library, sys: System, step: Step): System {
    if step.req.cfg.dryRun then
      var r := ApplyRequest(lib, EMPTY_PLANE, step.req, sys.stored, DRY_ANSWERS);
      System(if r.out.Absent? then sys.plane else Marked(sys.plane, true), HeldAfter(r, sys.stored))
    else
      var r := ApplyRequest(lib, Marked(sys.plane, false), step.req, sys.stored, step.answers);
      System(r.plane, HeldAfter(r, sys.stored))
  }

  function Run(lib: Library, sys: System, steps: seq<Step>): System {
    if steps == [] then sys
    else Driven(lib, Run(lib, sys, steps[..|steps| - 1]), steps[|steps| - 1])
  }

  /** The plane never reuses a version id. */
  predicate FreshReply(plane: Plane, reply: VersionReply) {
    !reply.NotCreated? ==> reply.version != "" && reply.version !in Observe(plane.log).issued
  }

  /** A request whose version can be built. */
  predicate Buildable(lib: Library, req: Request) {
    Accepted(lib, req) && DesiredSpec(lib, req).Success?
  }

  predicate RecordsAgent(stored: RawState) {
    Decode(stored).Success? && Decode(stored).value.agentName != ""
  }

  /**
   A step the theorems cover: a real apply for the run's pack id whose version
   ids are fresh, or a dry run, unless it would deploy from nothing.
   */
  ghost predicate LegalStep(lib: Library, name: string, before: System, step: Step) {
    if step.req.cfg.dryRun then Buildable(lib, step.req) ==> RecordsAgent(before.stored)
    else
      && (Accepted(lib, step.req) ==> NameOf(lib, step.req) == name)
      && FreshReply(before.plane, step.answers.version)
  }

  ghost predicate LegalRun(lib: Library, name: string, sys: System, steps: seq<Step>) {
    steps != [] ==>
      && LegalRun(lib, name, sys, steps[..|steps| - 1])
      && LegalStep(lib, name, Run(lib, sys, steps[..|steps| - 1]), steps[|steps| - 1])
  }

  /** A project in which this agent does not exist yet, and no recorded state. */
  ghost predicate Untouched(name: string, sys: System) {
    sys.stored.Absent? && name !in sys.plane.agents && sys.plane.log.NoCalls?
  }

  // ------------------------------------------------- what every run keeps

  /** The recorded state is what the log implies. */
  ghost predicate StateFollowsLog(name: string, o: Observed, s: State) {
    && s.agentName == (if o.created == 0 then "" else name)
    && o.created <= 1
    && History(s) == Cut(o.served, MAX_PRIOR_VERSIONS + 1)
    && (s.servedVersion == "" <==> o.served == [])
    && (match o.pending
        case None => s.inFlight.None?
        case Some(v) => s.inFlight.Some? && s.inFlight.value.version == v)
  }

  /** Until the agent exists nothing is versioned or served; afterwards its name is the only one used. */
  ghost predicate LogIsSound(name: string, o: Observed) {
    && o.ordered && o.names <= {name}
    && (o.created == 0 ==> o.served == [] && o.selector == "" && o.issued == {} && o.pending.None?)
    && "" !in o.issued
    && (forall v :: v in o.served ==> v in o.issued)
    && (forall i, j :: 0 <= i < j < |o.served| ==> o.served[i] != o.served[j])
    && (o.selector != "" ==> o.selector in o.issued)
    && if o.unacknowledged then o.selector != "" && o.selector !in o.served
       else o.selector == (if o.served == [] then "" else o.served[0])
  }

  ghost predicate PlaneFollowsLog(name: string, o: Observed, p: Plane) {
    && (o.created > 0 ==> o.made)
    && (name in p.agents <==> o.made)
    && (name in p.agents ==>
          p.agents[name].served == o.selector && p.agents[name].versions.Keys <= o.issued)
  }

  /** The part of the invariant that only concerns the log. */
  ghost predicate LogKept(name: string, p: Plane, s: State) {
    && StateFollowsLog(name, Observe(p.log), s)
    && LogIsSound(name, Observe(p.log))
    && PlaneFollowsLog(name, Observe(p.log), p)
  }

  /** A version was created for one of these requests, under its hashes. */
  ghost predicate BuiltFor(lib: Library, reqs: seq<Request>, v: VersionRecord) {
    exists r :: r in reqs && IsOrigin(lib, r, v)
  }

  predicate IsOrigin(lib: Library, r: Request, v: VersionRecord) {
    && !r.cfg.dryRun && Accepted(lib, r) && DesiredSpec(lib, r) == Success(v.spec)
    && PackHash(lib, r) == v.packHash && ConfigHash(lib, r) == v.configHash
  }

  /** The version is on the plane, and was created under these hashes. */
  predicate Labelled(name: string, p: Plane, version: string, packHash: string, configHash: string) {
    && name in p.agents && version in p.agents[name].versions
    && p.agents[name].versions[version].packHash == packHash
    && p.agents[name].versions[version].configHash == configHash
  }

  /** The hashes recorded for the served version, and for one in flight, are its own. */
  predicate HashesFollowVersions(name: string, p: Plane, s: State) {
    && (s.servedVersion != "" ==> Labelled(name, p, s.servedVersion, s.packHash, s.configHash))
    && (s.inFlight.Some? ==>
          Labelled(name, p, s.inFlight.value.version, s.inFlight.value.packHash, s.inFlight.value.configHash))
  }

  ghost predicate VersionsAreBuilt(lib: Library, name: string, reqs: seq<Request>, p: Plane) {
    name in p.agents ==>
      forall v :: v in p.agents[name].versions ==> BuiltFor(lib, reqs, p.agents[name].versions[v])
  }

  /** The endpoint speaks the protocols of the version it points at. */
  predicate EndpointFits(name: string, p: Plane) {
    name in p.agents && p.agents[name].served != "" ==>
      && p.agents[name].served in p.agents[name].versions
      && p.agents[name].protocols == p.agents[name].versions[p.agents[name].served].spec.protocols
  }

  ghost predicate VersionsKept(lib: Library, name: string, reqs: seq<Request>, p: Plane, s: State) {
    HashesFollowVersions(name, p, s) && VersionsAreBuilt(lib, name, reqs, p) && EndpointFits(name, p)
  }

  ghost predicate Kept(lib: Library, name: string, reqs: seq<Request>, p: Plane, s: State) {
    Valid(s) && LogKept(name, p, s) && VersionsKept(lib, name, reqs, p, s)
  }

  // ------------------------------------------------- one call at a time

  lemma CreateKeepsLog(name: string, p: Plane, x: ApplyInput, s: State, fate: Fate)
    requires LogKept(name, p, s) && x.spec.name == name && name != ""
    ensures var o := EnsureAgent(p, x, s, fate);
            && LogKept(name, o.plane, o.state)
            && (o.err.None? ==> o.state.agentName == name)
            && Observe(o.plane.log).issued == Observe(p.log).issued
  {
  }

  lemma CreateKeepsVersions(lib: Library, name: string, reqs: seq<Request>, p: Plane, x: ApplyInput, s: State,
                            fate: Fate)
    requires VersionsKept(lib, name, reqs, p, s) && x.spec.name == name
    ensures VersionsKept(lib, name, reqs, EnsureAgent(p, x, s, fate).plane, EnsureAgent(p, x, s, fate).state)
  {
    hide BuiltFor;
  }

  lemma CreateKeeps(lib: Library, name: string, reqs: seq<Request>, p: Plane, x: ApplyInput, s: State, fate: Fate)
    requires Kept(lib, name, reqs, p, s) && x.spec.name == name && name != ""
    ensures var o := EnsureAgent(p, x, s, fate);
            && Kept(lib, name, reqs, o.plane, o.state)
            && (o.err.None? ==> o.state.agentName == name)
            && Observe(o.plane.log).issued == Observe(p.log).issued
  {
    hide LogKept, VersionsKept;
    CreateKeepsLog(name, p, x, s, fate);
    CreateKeepsVersions(lib, name, reqs, p, x, s, fate);
  }

  /** The state recorded after a version call. */
  function AfterVersion(x: ApplyInput, s: State, reply: VersionReply): State {
    if !reply.Replied? then s
    else if reply.status == STATUS_ACTIVE then s.(inFlight := None)
    else s.(inFlight := Some(InFlightVersion(reply.version, x.packHash, x.configHash)))
  }

  /** A version just reported active: new to the endpoint, and the one this apply asked for. */
  ghost predicate Servable(name: string, p: Plane, version: string, wanted: VersionRecord) {
    var o := Observe(p.log);
    && o.lastActive == Some(version) && version in o.issued && version !in o.served && version != o.selector
    && o.pending.None? && o.created == 1
    && name in p.agents && version in p.agents[name].versions && p.agents[name].versions[version] == wanted
  }

  lemma VersionKeepsLog(name: string, p: Plane, x: ApplyInput, s: State, reply: VersionReply)
    requires LogKept(name, p, s) && s.agentName == name && name != "" && FreshReply(p, reply)
    ensures LogKept(name, VersionCreated(p, name, Wanted(x), reply), AfterVersion(x, s, reply))
    ensures reply.Replied? && reply.status == STATUS_ACTIVE ==>
              Servable(name, VersionCreated(p, name, Wanted(x), reply), reply.version, Wanted(x))
  {
    assert AfterVersion(x, s, reply).servedVersion == s.servedVersion;
  }

  lemma VersionKeepsVersions(lib: Library, name: string, reqs: seq<Request>, p: Plane, x: ApplyInput, s: State,
                             reply: VersionReply)
    requires VersionsKept(lib, name, reqs, p, s) && FreshReply(p, reply) && BuiltFor(lib, reqs, Wanted(x))
    requires PlaneFollowsLog(name, Observe(p.log), p) && name in p.agents
    ensures VersionsKept(lib, name, reqs, VersionCreated(p, name, Wanted(x), reply), AfterVersion(x, s, reply))
  {
    hide BuiltFor, Observe;
  }

  lemma LogKeptFollows(name: string, p: Plane, s: State)
    requires LogKept(name, p, s) && name != ""
    ensures PlaneFollowsLog(name, Observe(p.log), p)
    ensures s.agentName == name ==> name in p.agents
  {
  }

  lemma VersionKeeps(lib: Library, name: string, reqs: seq<Request>, p: Plane, x: ApplyInput, s: State,
                     reply: VersionReply)
    requires Kept(lib, name, reqs, p, s) && s.agentName == name && name != "" && FreshReply(p, reply)
    requires BuiltFor(lib, reqs, Wanted(x))
    ensures Kept(lib, name, reqs, VersionCreated(p, name, Wanted(x), reply), AfterVersion(x, s, reply))
    ensures reply.Replied? && reply.status == STATUS_ACTIVE ==>
              Servable(name, VersionCreated(p, name, Wanted(x), reply), reply.version, Wanted(x))
  {
    hide LogKept, VersionsKept, Servable, BuiltFor;
    LogKeptFollows(name, p, s);
    VersionKeepsLog(name, p, x, s, reply);
    VersionKeepsVersions(lib, name, reqs, p, x, s, reply);
  }

  /** Cutting a log before prepending to it does not change what is kept. */
  lemma CutTwice(front: string, log: seq<string>, n: nat)
    ensures Cut([front] + Cut(log, n), n) == Cut([front] + log, n)
  {
  }

  lemma ServeKeepsHistory(o: Observed, s: State, version: string)
    requires History(s) == Cut(o.served, MAX_PRIOR_VERSIONS + 1)
    requires s.servedVersion == "" <==> o.served == []
    requires version !in o.served && version != ""
    ensures History(Recorded(s, version)) == Cut([version] + o.served, MAX_PRIOR_VERSIONS + 1)
  {
    if s.servedVersion != "" {
      assert History(s)[0] == s.servedVersion;
    }
    RecordingExtendsHistory(s, version);
    CutTwice(version, o.served, MAX_PRIOR_VERSIONS + 1);
  }

  lemma ServeKeepsSound(name: string, o: Observed, version: string, fate: Fate)
    requires LogIsSound(name, o) && o.created == 1 && o.lastActive == Some(version)
    requires version in o.issued && version !in o.served && version != o.selector
    ensures LogIsSound(name, Seen(o, EndpointCall(name, version, fate)))
  {
  }

  lemma ServeKeepsState(name: string, o: Observed, x: ApplyInput, s: State, version: string)
    requires StateFollowsLog(name, o, s) && version !in o.served && version != ""
    ensures StateFollowsLog(name, Seen(o, EndpointCall(name, version, Delivered)),
                            Recorded(s, version).(packHash := x.packHash, configHash := x.configHash))
  {
    ServeKeepsHistory(o, s, version);
  }

  lemma ServeKeepsLog(name: string, p: Plane, x: ApplyInput, s: State, version: string, fate: Fate)
    requires LogKept(name, p, s) && Servable(name, p, version, Wanted(x)) && x.agentName == name && name != ""
    ensures LogKept(name, Serve(p, x, s, version, fate).plane, Serve(p, x, s, version, fate).state)
  {
    hide LogIsSound, Recorded;
    ServableVersion(name, p, s, version, Wanted(x));
    ServeKeepsSound(name, Observe(p.log), version, fate);
    ServeKeepsState(name, Observe(p.log), x, s, version);
  }

  lemma ServableVersion(name: string, p: Plane, s: State, version: string, wanted: VersionRecord)
    requires LogKept(name, p, s) && Servable(name, p, version, wanted)
    ensures version != ""
  {
  }

  lemma ServeKeepsVersions(lib: Library, name: string, reqs: seq<Request>, p: Plane, x: ApplyInput, s: State,
                           version: string, fate: Fate)
    requires VersionsKept(lib, name, reqs, p, s) && Servable(name, p, version, Wanted(x))
    requires x.agentName == name && x.protocols == x.spec.protocols
    ensures VersionsKept(lib, name, reqs, Serve(p, x, s, version, fate).plane, Serve(p, x, s, version, fate).state)
  {
    hide BuiltFor, Observe;
  }

  lemma ServeKeeps(lib: Library, name: string, reqs: seq<Request>, p: Plane, x: ApplyInput, s: State,
                   version: string, fate: Fate)
    requires Kept(lib, name, reqs, p, s) && Servable(name, p, version, Wanted(x)) && name != ""
    requires x.agentName == name && x.protocols == x.spec.protocols
    ensures Kept(lib, name, reqs, Serve(p, x, s, version, fate).plane, Serve(p, x, s, version, fate).state)
  {
    hide VersionsKept, LogKept, Servable;
    ServeKeepsLog(name, p, x, s, version, fate);
    ServeKeepsVersions(lib, name, reqs, p, x, s, version, fate);
  }

  lemma ApplyAgentKeeps(lib: Library, name: string, reqs: seq<Request>, p: Plane, x: ApplyInput, prior: State,
                        a: Answers)
    requires Kept(lib, name, reqs, p, Stamped(lib, x, prior)) && name != ""
    requires x.agentName == name && x.spec.name == name && x.protocols == x.spec.protocols
    requires BuiltFor(lib, reqs, Wanted(x)) && FreshReply(p, a.version)
    ensures Kept(lib, name, reqs, ApplyAgent(lib, p, x, prior, a).plane, ApplyAgent(lib, p, x, prior, a).state)
  {
    hide Kept, BuiltFor, Servable, VersionNeeded;
    var s := Stamped(lib, x, prior);
    CreateKeeps(lib, name, reqs, p, x, s, a.agent);
    var ensured := EnsureAgent(p, x, s, a.agent);
    if ensured.err.None? && VersionNeeded(x, ensured.state) {
      VersionKeeps(lib, name, reqs, ensured.plane, x, ensured.state, a.version);
      if a.version.Replied? && a.version.status == STATUS_ACTIVE {
        var made := VersionCreated(ensured.plane, name, Wanted(x), a.version);
        ServeKeeps(lib, name, reqs, made, x, ensured.state.(inFlight := None), a.version.version, a.serve);
      }
    }
  }

  // ------------------------------------------------- one operation

  lemma MoreRequests(lib: Library, name: string, reqs: seq<Request>, req: Request, p: Plane, s: State)
    requires Kept(lib, name, reqs, p, s)
    ensures Kept(lib, name, reqs + [req], p, s)
  {
    hide IsOrigin, LogKept;
    assert forall r :: r in reqs ==> r in reqs + [req];
  }

  /** What the invariant does not depend on: boundaries, blobs and the fields an apply always stamps. */
  lemma StageKeepsLog(lib: Library, name: string, req: Request, p: Plane, prior: State, fate: Fate)
    requires LogKept(name, p, prior)
    ensures LogKept(name, Stage(lib, p, req, prior, fate), prior)
    ensures Observe(Stage(lib, p, req, prior, fate).log).issued == Observe(p.log).issued
    ensures Stage(lib, p, req, prior, fate).agents == p.agents
  {
    hide PackUriOf;
  }

  lemma VersionsFrame(lib: Library, name: string, reqs: seq<Request>, p: Plane, s: State, q: Plane, t: State)
    requires VersionsKept(lib, name, reqs, p, s) && p.agents == q.agents
    requires s.servedVersion == t.servedVersion && s.packHash == t.packHash && s.configHash == t.configHash
    requires t.inFlight.None? || t.inFlight == s.inFlight
    ensures VersionsKept(lib, name, reqs, q, t)
  {
    hide BuiltFor;
  }

  lemma StampKeeps(lib: Library, name: string, reqs: seq<Request>, p: Plane, prior: State, x: ApplyInput)
    requires Kept(lib, name, reqs, p, prior)
    ensures Kept(lib, name, reqs, p, Stamped(lib, x, prior))
  {
    hide BuiltFor;
  }

  lemma StageKeeps(lib: Library, name: string, reqs: seq<Request>, req: Request, p: Plane, prior: State, fate: Fate)
    requires Kept(lib, name, reqs, p, prior)
    ensures Kept(lib, name, reqs, Stage(lib, p, req, prior, fate), prior)
    ensures forall reply :: FreshReply(p, reply) ==> FreshReply(Stage(lib, p, req, prior, fate), reply)
  {
    hide LogKept, VersionsKept, Stage;
    StageKeepsLog(lib, name, req, p, prior, fate);
    VersionsFrame(lib, name, reqs, p, prior, Stage(lib, p, req, prior, fate), prior);
  }

  /** A real apply keeps the invariant, whatever fails. */
  lemma ApplyKeeps(lib: Library, name: string, reqs: seq<Request>, p: Plane, req: Request, stored: RawState, a: Answers)
    requires Decode(stored).Success? && Kept(lib, name, reqs, p, Decode(stored).value)
    requires req in reqs && !req.cfg.dryRun && name != "" && FreshReply(p, a.version)
    requires Accepted(lib, req) ==> NameOf(lib, req) == name
    ensures
      var r := ApplyRequest(lib, p, req, stored, a);
      var held := HeldAfter(r, stored);
      Decode(held).Success? && Kept(lib, name, reqs, r.plane, Decode(held).value)
  {
    hide Kept, Stage, UploadNeeded, FreshReply, Decode, IsOrigin;
    GatherSplits(lib, req, stored);
    if Accepted(lib, req) && a.connected {
      var prior := Decode(stored).value;
      StageKeeps(lib, name, reqs, req, p, prior, a.stage);
      if (!UploadNeeded(lib, req, prior) || a.stage.Delivered?) && DesiredSpec(lib, req).Success? {
        var spec := DesiredSpec(lib, req).value;
        var staged, x := Stage(lib, p, req, prior, a.stage), InputFor(lib, req, spec);
        StampKeeps(lib, name, reqs, staged, prior, x);
        OriginOf(lib, req, spec);
        ApplyAgentKeeps(lib, name, reqs, staged, x, prior, a);
        var o := ApplyAgent(lib, staged, x, prior, a);
        KeptIsValid(lib, name, reqs, o.plane, o.state);
        StateRoundTrip(o.state);
      }
    }
  }

  lemma OriginOf(lib: Library, req: Request, spec: AgentSpec)
    requires Accepted(lib, req) && DesiredSpec(lib, req) == Success(spec)
    ensures !req.cfg.dryRun ==> IsOrigin(lib, req, Wanted(InputFor(lib, req, spec)))
    ensures spec.name == NameOf(lib, req) && spec.protocols == req.cfg.protocols
  {
  }

  lemma KeptIsValid(lib: Library, name: string, reqs: seq<Request>, p: Plane, s: State)
    requires Kept(lib, name, reqs, p, s)
    ensures Valid(s)
  {
  }

  // ------------------------------------------------- a dry run among them

  /** A dry run over a recorded agent forgets what was in flight and stamps its own name for the pack; no more. */
  lemma DryApplyAgent(lib: Library, p: Plane, x: ApplyInput, prior: State)
    requires prior.agentName != "" && x.agentName !in p.agents
    ensures ApplyAgent(lib, p, x, prior, DRY_ANSWERS).state == Stamped(lib, x, prior).(inFlight := None)
  {
  }

  /** Over nothing recorded it claims an agent that is not there. */
  lemma DryFirstDeploy(lib: Library, p: Plane, x: ApplyInput, prior: State)
    requires prior.agentName == "" && x.agentName !in p.agents && x.spec.name == x.agentName
    ensures ApplyAgent(lib, p, x, prior, DRY_ANSWERS).state.agentName == x.agentName
    ensures Valid(prior) ==> Valid(ApplyAgent(lib, p, x, prior, DRY_ANSWERS).state)
  {
  }

  /** The state held after a dry run. */
  lemma DryStep(lib: Library, sys: System, step: Step)
    requires step.req.cfg.dryRun && Decode(sys.stored).Success?
    ensures
      var after, prior := Driven(lib, sys, step), Decode(sys.stored).value;
      && Decode(after.stored).Success?
      && var held := Decode(after.stored).value;
         if !Buildable(lib, step.req) then after == sys
         else
           && after.plane == Marked(sys.plane, true)
           && if prior.agentName == "" then held.agentName == NameOf(lib, step.req)
              else
                held == prior.(version := STATE_VERSION, adapterVersion := lib.adapterVersion,
                               stagedPackUri := PackUriOf(lib, step.req), inFlight := None)
  {
    hide Decode, Gather, DesiredSpec, NameOf, Encode, Valid, ApplyAgent, PackUriOf, Stage, UploadNeeded;
    var req, prior := step.req, Decode(sys.stored).value;
    GatherSplits(lib, req, sys.stored);
    if Buildable(lib, req) {
      DecodedIsValid(sys.stored);
      var x := InputFor(lib, req, DesiredSpec(lib, req).value);
      OriginOf(lib, req, x.spec);
      var staged := Stage(lib, EMPTY_PLANE, req, prior, Delivered);
      EmptyStaysEmpty(lib, req, prior);
      if prior.agentName == "" {
        DryFirstDeploy(lib, staged, x, prior);
      } else {
        DryApplyAgent(lib, staged, x, prior);
        StampedIsValid(lib, x, prior);
      }
      StateRoundTrip(ApplyAgent(lib, staged, x, prior, DRY_ANSWERS).state);
    }
  }

  lemma EmptyStaysEmpty(lib: Library, req: Request, prior: State)
    ensures Stage(lib, EMPTY_PLANE, req, prior, Delivered).agents == map[]
  {
  }

  lemma StampedIsValid(lib: Library, x: ApplyInput, prior: State)
    requires Valid(prior)
    ensures Valid(Stamped(lib, x, prior).(inFlight := None))
  {
  }

  lemma DryKeepsLog(name: string, p: Plane, s: State, t: State)
    requires LogKept(name, p, s)
    requires t.agentName == s.agentName && t.servedVersion == s.servedVersion && t.priorVersions == s.priorVersions
    requires t.inFlight.None?
    ensures LogKept(name, Marked(p, true), t)
  {
  }

  /** Reaching the log's state again, a mark for an apply that is about to start changes nothing. */
  lemma MarkKeeps(lib: Library, name: string, reqs: seq<Request>, p: Plane, s: State)
    requires Kept(lib, name, reqs, p, s)
    ensures Kept(lib, name, reqs, Marked(p, false), s)
    ensures forall reply :: FreshReply(p, reply) ==> FreshReply(Marked(p, false), reply)
  {
    hide BuiltFor, StateFollowsLog, LogIsSound, PlaneFollowsLog, VersionsKept;
    MarkKeepsLog(name, p, s);
    VersionsFrame(lib, name, reqs, p, s, Marked(p, false), s);
  }

  lemma MarkKeepsLog(name: string, p: Plane, s: State)
    requires LogKept(name, p, s)
    ensures LogKept(name, Marked(p, false), s)
  {
  }

  /**
   Exactly which dry runs can be allowed in a run: all but a buildable one with
   no agent recorded, whose state names an agent that no call has created.
   */
  lemma DryStepKeepsExactly(lib: Library, name: string, reqs: seq<Request>, sys: System, step: Step)
    requires step.req.cfg.dryRun && Decode(sys.stored).Success? && name != ""
    requires Kept(lib, name, reqs, sys.plane, Decode(sys.stored).value)
    ensures Decode(Driven(lib, sys, step).stored).Success?
    ensures Kept(lib, name, reqs, Driven(lib, sys, step).plane, Decode(Driven(lib, sys, step).stored).value) <==>
            LegalStep(lib, name, sys, step)
  {
    hide Decode, Driven, Gather, DesiredSpec, NameOf, PackUriOf, VersionsKept;
    DryStep(lib, sys, step);
    var s, after := Decode(sys.stored).value, Driven(lib, sys, step);
    var t := Decode(after.stored).value;
    if Buildable(lib, step.req) {
      if s.agentName == "" {
        NoAgentIsRecorded(lib, name, reqs, sys.plane, s);
        NamesAreNotEmpty(lib, step.req);
      } else {
        DryKeepsLog(name, sys.plane, s, t);
        VersionsFrame(lib, name, reqs, sys.plane, s, after.plane, t);
      }
    }
  }

  lemma NoAgentIsRecorded(lib: Library, name: string, reqs: seq<Request>, p: Plane, s: State)
    requires Kept(lib, name, reqs, p, s) && s.agentName == "" && name != ""
    ensures Observe(Marked(p, true).log).created == 0
  {
  }

  // ------------------------------------------------- every run

  function RequestsOf(steps: seq<Step>): seq<Request> {
    seq(|steps|, i requires 0 <= i < |steps| => steps[i].req)
  }

  lemma StartIsKept(lib: Library, name: string, sys: System)
    requires Untouched(name, sys)
    ensures Kept(lib, name, [], sys.plane, FRESH_STATE)
  {
  }

  lemma {:induction false} RunKeeps(lib: Library, name: string, sys: System, steps: seq<Step>)
    requires Untouched(name, sys) && LegalRun(lib, name, sys, steps) && name != ""
    ensures Decode(Run(lib, sys, steps).stored).Success?
    ensures Kept(lib, name, RequestsOf(steps), Run(lib, sys, steps).plane, Decode(Run(lib, sys, steps).stored).value)
  {
    hide Kept, ApplyRequest, FreshReply, Accepted, Buildable, RecordsAgent, Marked;
    if steps == [] {
      StartIsKept(lib, name, sys);
      assert RequestsOf(steps) == [];
    } else {
      var earlier, last := steps[..|steps| - 1], steps[|steps| - 1];
      RunKeeps(lib, name, sys, earlier);
      var before := Run(lib, sys, earlier);
      var s := Decode(before.stored).value;
      MoreRequests(lib, name, RequestsOf(earlier), last.req, before.plane, s);
      assert RequestsOf(steps) == RequestsOf(earlier) + [last.req];
      if last.req.cfg.dryRun {
        DryStepKeepsExactly(lib, name, RequestsOf(steps), before, last);
      } else {
        MarkKeeps(lib, name, RequestsOf(steps), before.plane, s);
        ApplyKeeps(lib, name, RequestsOf(steps), Marked(before.plane, false), last.req, before.stored, last.answers);
      }
    }
  }

  /** The state recorded at the end of a run. */
  function FinalState(lib: Library, sys: System, steps: seq<Step>): State
    requires Decode(Run(lib, sys, steps).stored).Success?
  {
    Decode(Run(lib, sys, steps).stored).value
  }

  lemma LogKeptMeans(name: string, p: Plane, s: State)
    requires LogKept(name, p, s) && name != ""
    ensures
      var o := Observe(p.log);
      && o.created <= 1 && s.agentName == (if o.created == 1 then name else "") && o.names <= {name}
      && (name in p.agents <==> o.made) && (s.agentName != "" ==> o.made)
      && o.ordered
      && s.servedVersion == (if o.served == [] then "" else o.served[0])
      && (s.servedVersion != "" ==> o.selector != "" && s.agentName != "")
      && (name in p.agents ==>
            p.agents[name].served == o.selector && (s.servedVersion == p.agents[name].served <==> !o.unacknowledged))
  {
    var o := Observe(p.log);
    if o.served != [] {
      assert History(s)[0] == o.served[0];
      assert s.servedVersion == o.served[0];
    }
  }

  lemma HistoryMeans(o: Observed, s: State)
    requires History(s) == Cut(o.served, MAX_PRIOR_VERSIONS + 1)
    requires s.servedVersion == "" <==> o.served == []
    requires forall i, j :: 0 <= i < j < |o.served| ==> o.served[i] != o.served[j]
    ensures if s.servedVersion == "" then s.priorVersions == [] && o.served == []
            else [s.servedVersion] + s.priorVersions == Cut(o.served, MAX_PRIOR_VERSIONS + 1)
    ensures forall i, j :: 0 <= i < j < |s.priorVersions| ==> s.priorVersions[i] != s.priorVersions[j]
    ensures s.servedVersion !in s.priorVersions
  {
    if s.servedVersion != "" {
      assert History(s)[0] == o.served[0];
      forall i | 0 <= i < |s.priorVersions|
        ensures s.priorVersions[i] == o.served[i + 1]
      {
        assert History(s)[i + 1] == s.priorVersions[i];
      }
    } else {
      assert |History(s)| == 0;
    }
  }

  /**
   Safety over whole runs, with calls failing anywhere and any status returned.
   At most one agent creation is ever acknowledged, and from then on the
   recorded state names that agent and every call addresses it. The endpoint is
   only ever pointed at a version that the same apply, in the call before, saw
   active. The recorded served version is the last one whose endpoint call was acknowledged; it is
   the one the endpoint points at exactly when no later endpoint call took
   effect unacknowledged.
   */
  lemma WholeRunSafety(lib: Library, name: string, sys: System, steps: seq<Step>)
    requires Untouched(name, sys) && LegalRun(lib, name, sys, steps) && name != ""
    ensures Decode(Run(lib, sys, steps).stored).Success?
    ensures
      var s, p := FinalState(lib, sys, steps), Run(lib, sys, steps).plane;
      var o := Observe(p.log);
      && o.created <= 1 && s.agentName == (if o.created == 1 then name else "") && o.names <= {name}
      && (name in p.agents <==> o.made) && (s.agentName != "" ==> o.made)
      && o.ordered
      && s.servedVersion == (if o.served == [] then "" else o.served[0])
      && (s.servedVersion != "" ==> o.selector != "" && s.agentName != "")
      && (name in p.agents ==>
            p.agents[name].served == o.selector && (s.servedVersion == p.agents[name].served <==> !o.unacknowledged))
  {
    hide LogKept, VersionsKept, Run, Decode;
    RunKeeps(lib, name, sys, steps);
    LogKeptMeans(name, Run(lib, sys, steps).plane, FinalState(lib, sys, steps));
  }

  /**
   The recorded pack and config hashes are exactly those the served version was
   created under, and those recorded with a version in flight are its own. Every
   version on the plane was built for some step's request under that request's
   hashes. In flight is recorded exactly while the last version reply was for a
   version not yet active and no dry run has handed a state back since.
   */
  lemma ServedHashes(lib: Library, name: string, sys: System, steps: seq<Step>)
    requires Untouched(name, sys) && LegalRun(lib, name, sys, steps) && name != ""
    ensures Decode(Run(lib, sys, steps).stored).Success?
    ensures
      var s, p := FinalState(lib, sys, steps), Run(lib, sys, steps).plane;
      && HashesFollowVersions(name, p, s)
      && (name in p.agents ==> forall v :: v in p.agents[name].versions ==>
            exists i :: 0 <= i < |steps| && IsOrigin(lib, steps[i].req, p.agents[name].versions[v]))
      && Observe(p.log).pending == (if s.inFlight.None? then None else Some(s.inFlight.value.version))
  {
    hide IsOrigin, Run, Decode;
    RunKeeps(lib, name, sys, steps);
    var s, p := FinalState(lib, sys, steps), Run(lib, sys, steps).plane;
    if name in p.agents {
      forall v | v in p.agents[name].versions
        ensures exists i :: 0 <= i < |steps| && IsOrigin(lib, steps[i].req, p.agents[name].versions[v])
      {
        OriginAmong(lib, steps, p.agents[name].versions[v]);
      }
    }
  }

  lemma OriginAmong(lib: Library, steps: seq<Step>, v: VersionRecord)
    requires BuiltFor(lib, RequestsOf(steps), v)
    ensures exists i :: 0 <= i < |steps| && IsOrigin(lib, steps[i].req, v)
  {
    hide IsOrigin;
    var r :| r in RequestsOf(steps) && IsOrigin(lib, r, v);
    var i :| 0 <= i < |steps| && RequestsOf(steps)[i] == r;
    assert IsOrigin(lib, steps[i].req, v);
  }

  /**
   Whatever fails, the endpoint never exposes protocols other than those of the
   version it points at, whichever request last got through.
   */
  lemma LiveProtocols(lib: Library, name: string, sys: System, steps: seq<Step>)
    requires Untouched(name, sys) && LegalRun(lib, name, sys, steps) && name != ""
    ensures EndpointFits(name, Run(lib, sys, steps).plane)
  {
    hide LogKept, VersionsAreBuilt, HashesFollowVersions, Run, Decode, EndpointFits;
    RunKeeps(lib, name, sys, steps);
  }

  /**
   The rollback history refines the log: the served version followed by the
   prior versions is the newest-first list of all versions ever served, cut to
   twenty-one entries, and no version occurs in it twice.
   */
  lemma RollbackHistory(lib: Library, name: string, sys: System, steps: seq<Step>)
    requires Untouched(name, sys) && LegalRun(lib, name, sys, steps) && name != ""
    ensures Decode(Run(lib, sys, steps).stored).Success?
    ensures
      var s, o := FinalState(lib, sys, steps), Observe(Run(lib, sys, steps).plane.log);
      && (if s.servedVersion == "" then s.priorVersions == [] && o.served == []
          else [s.servedVersion] + s.priorVersions == if |o.served| <= 21 then o.served else o.served[..21])
      && (forall i, j :: 0 <= i < j < |s.priorVersions| ==> s.priorVersions[i] != s.priorVersions[j])
      && s.servedVersion !in s.priorVersions
  {
    hide VersionsKept, PlaneFollowsLog, Run, Decode;
    RunKeeps(lib, name, sys, steps);
    HistoryMeans(Observe(Run(lib, sys, steps).plane.log), FinalState(lib, sys, steps));
  }
}
