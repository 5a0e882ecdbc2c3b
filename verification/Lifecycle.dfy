/**
 Destroy and status: what tearing an agent down leaves behind, what an apply
 does afterwards, and what the reported health of a deployment means.
 */
module Lifecycle {
  import opened Wrappers
  import opened AdapterState
  import opened AgentSpecs
  import opened Apply
  import opened ControlPlane
  import opened Convergence
  import opened Requests
  import opened Runs

  // ------------------------------------------------- destroy

  datatype DestroyError = BadRecordedState(error: StateError) | Unreachable | NotDeleted

  datatype Destroyed = Destroyed(plane: Plane, err: Option<DestroyError>)

  /** Destroy returns no state: what is recorded stays recorded. */
  function Destroy(p: Plane, stored: RawState, connected: bool, fate: Fate): Destroyed {
    match Decode(stored)
    case Failure(e) => Destroyed(p, Some(BadRecordedState(e)))
    case Success(prior) =>
      if prior.agentName == "" then Destroyed(p, None)
      else if !connected then Destroyed(p, Some(Unreachable))
      else
        Destroyed(AgentDeleted(p, prior.agentName, fate), if fate.Delivered? then None else Some(NotDeleted))
  }

  method DestroyOperation(client: Client, stored: RawState, connected: bool, fate: Fate)
      returns (err: Option<DestroyError>)
    modifies client
    ensures Destroyed(client.plane, err) == Destroy(old(client.plane), stored, connected, fate)
  {
    var prior := ParseState(stored);
    if prior.Failure? {
      return Some(BadRecordedState(prior.error));
    }
    if prior.value.agentName == "" {
      return None;
    }
    if !connected {
      return Some(Unreachable);
    }
    var ok := client.DeleteAgent(prior.value.agentName, fate);
    if !ok {
      return Some(NotDeleted);
    }
    err := None;
  }

  /**
   What destroy reports for every recorded text: unreadable state and a missing
   connection are errors and touch nothing, nothing recorded needs no connection,
   and otherwise it is the deletion of the recorded agent that decides.
   */
  lemma DestroyReports(p: Plane, stored: RawState, connected: bool, fate: Fate)
    ensures
      var d, read := Destroy(p, stored, connected, fate), Decode(stored);
      if read.Failure? then d == Destroyed(p, Some(BadRecordedState(read.error)))
      else if read.value.agentName == "" then d == Destroyed(p, None)
      else if !connected then d == Destroyed(p, Some(Unreachable))
      else
        && d.plane.log == Then(p.log, DeleteCall(read.value.agentName, fate)) && d.plane.blobs == p.blobs
        && d.plane.agents == (if fate.Refused? then p.agents else p.agents - {read.value.agentName})
        && (d.err.None? <==> fate.Delivered?) && (d.err.Some? ==> d.err == Some(NotDeleted))
  {
    hide Decode;
  }

  /**
   What destroy leaves after any run. It reports success exactly when nothing is
   recorded or the deletion was acknowledged; other agents and all blobs stay,
   and destroying again after a success changes nothing. Success does not always
   mean the agent is gone: it is still there exactly when a creation took effect
   that was never acknowledged, so that nothing was recorded to delete.
   */
  lemma DestroyConverges(lib: Library, name: string, sys: System, steps: seq<Step>, fate: Fate, again: Fate)
    requires Untouched(name, sys) && LegalRun(lib, name, sys, steps) && name != ""
    ensures Decode(Run(lib, sys, steps).stored).Success?
    ensures
      var p, s := Run(lib, sys, steps).plane, FinalState(lib, sys, steps);
      var o, stored := Observe(p.log), Run(lib, sys, steps).stored;
      var d := Destroy(p, stored, true, fate);
      && d.plane.blobs == p.blobs
      && (forall n :: n != name ==> (n in d.plane.agents <==> n in p.agents))
      && (forall n :: n != name && n in p.agents ==> d.plane.agents[n] == p.agents[n])
      && (d.err.None? <==> s.agentName == "" || fate.Delivered?)
      && (name in d.plane.agents <==> name in p.agents && (s.agentName == "" || fate.Refused?))
      && (d.err.None? ==> (name in d.plane.agents <==> o.made && o.created == 0))
      && (d.err.None? && again.Delivered? ==>
            && Destroy(d.plane, stored, true, again).err.None?
            && Destroy(d.plane, stored, true, again).plane.agents == d.plane.agents)
  {
    hide Run, LegalRun, Decode, Observe;
    WholeRunSafety(lib, name, sys, steps);
  }

  /**
   A caller that keeps the recorded state after a destroy can never deploy this
   pack again: no run of applies, dry or not, creates the agent.
   */
  lemma DestroyedButRemembered(lib: Library, name: string, sys: System, steps: seq<Step>, fate: Fate, more: seq<Step>)
    requires Untouched(name, sys) && LegalRun(lib, name, sys, steps) && name != ""
    requires Decode(Run(lib, sys, steps).stored).Success? ==> FinalState(lib, sys, steps).agentName != ""
    requires Destroy(Run(lib, sys, steps).plane, Run(lib, sys, steps).stored, true, fate).err.None?
    requires forall i :: 0 <= i < |more| && Accepted(lib, more[i].req) ==> NameOf(lib, more[i].req) == name
    ensures
      var p := Destroy(Run(lib, sys, steps).plane, Run(lib, sys, steps).stored, true, fate).plane;
      Run(lib, System(p, Run(lib, sys, steps).stored), more).plane.agents == p.agents && name !in p.agents
  {
    hide Run, LegalRun, Decode, Observe, Accepted, NameOf;
    WholeRunSafety(lib, name, sys, steps);
    DestroyConverges(lib, name, sys, steps, fate, Delivered);
    var stored := Run(lib, sys, steps).stored;
    StrandedForever(lib, name, System(Destroy(Run(lib, sys, steps).plane, stored, true, fate).plane, stored), more);
  }

  /**
   One that forgets it starts over: with the agent gone, an apply whose calls
   succeed leaves an agent holding one version, the one just asked for, served,
   and a state that remembers no earlier version.
   */
  lemma ForgottenStartsOver(lib: Library, p: Plane, req: Request, a: Answers)
    requires Accepted(lib, req) && DesiredSpec(lib, req).Success? && NameOf(lib, req) !in p.agents
    requires AllGood(a) && a.version.version != ""
    ensures
      var r, name, v := ApplyRequest(lib, p, req, Absent, a), NameOf(lib, req), a.version.version;
      && r.err.None? && Decode(r.out).Success?
      && name in r.plane.agents
      && r.plane.agents[name] ==
           AgentRecord(v, req.cfg.protocols, map[v := Wanted(InputFor(lib, req, DesiredSpec(lib, req).value))])
      && History(Decode(r.out).value) == [v] && Decode(r.out).value.inFlight.None?
  {
    hide Decode, DesiredSpec, Stage, Encode, Gather, NameOf, PackHash, ConfigHash, PackUriOf;
    AbsentIsFresh();
    Submitted(lib, p, req, Absent, a);
    var x := InputFor(lib, req, DesiredSpec(lib, req).value);
    OriginOf(lib, req, x.spec);
    var staged := Stage(lib, p, req, FRESH_STATE, a.stage);
    StageKeepsAgents(lib, p, req, FRESH_STATE, a.stage);
    StateRoundTrip(ApplyAgent(lib, staged, x, FRESH_STATE, a).state);
  }

  // ------------------------------------------------- first steps

  /** One real apply from an untouched project, with its pack delivered, as a run. */
  lemma FirstStep(lib: Library, p: Plane, req: Request, a: Answers)
    requires Buildable(lib, req) && !req.cfg.dryRun && NameOf(lib, req) !in p.agents && p.log.NoCalls?
    requires a.connected && a.stage.Delivered? && FreshReply(p, a.version)
    ensures
      var name, sys, steps := NameOf(lib, req), System(p, Absent), [Step(req, a)];
      var x := InputFor(lib, req, DesiredSpec(lib, req).value);
      var staged := Stage(lib, Marked(p, false), req, FRESH_STATE, a.stage);
      var o := ApplyAgent(lib, staged, x, FRESH_STATE, a);
      && Untouched(name, sys) && name != "" && LegalRun(lib, name, sys, steps)
      && staged.agents == p.agents && x.spec.name == name && x.agentName == name
      && Run(lib, sys, steps) == System(o.plane, Doc(Obj(Encode(o.state))))
      && Decode(Run(lib, sys, steps).stored) == Success(o.state)
  {
    hide Decode, DesiredSpec, Stage, Encode, Gather, NameOf, PackUriOf, ApplyAgent, FreshReply, Observe, Valid, Accepted;
    var sys, steps := System(p, Absent), [Step(req, a)];
    assert steps[..0] == [];
    NamesAreNotEmpty(lib, req);
    AbsentIsFresh();
    Submitted(lib, Marked(p, false), req, Absent, a);
    var x := InputFor(lib, req, DesiredSpec(lib, req).value);
    OriginOf(lib, req, x.spec);
    var staged := Stage(lib, Marked(p, false), req, FRESH_STATE, a.stage);
    StageKeepsAgents(lib, Marked(p, false), req, FRESH_STATE, a.stage);
    FreshIsValid();
    KeepsValid(lib, staged, x, FRESH_STATE, a);
    StateRoundTrip(ApplyAgent(lib, staged, x, FRESH_STATE, a).state);
  }

  lemma FreshIsValid()
    ensures Valid(FRESH_STATE)
  {
  }

  /**
   The hypotheses of the theorems about runs are met by every first deploy: it
   is a legal run from an untouched project, it leaves the state settled for its
   own request, and that state can be destroyed.
   */
  lemma FirstDeployIsARun(lib: Library, p: Plane, req: Request, a: Answers)
    requires Buildable(lib, req) && !req.cfg.dryRun && NameOf(lib, req) !in p.agents && p.log.NoCalls?
    requires AllGood(a) && FreshReply(p, a.version)
    ensures
      var name, sys, steps := NameOf(lib, req), System(p, Absent), [Step(req, a)];
      && Untouched(name, sys) && name != "" && LegalRun(lib, name, sys, steps)
      && Decode(Run(lib, sys, steps).stored).Success?
      && FinalState(lib, sys, steps).agentName == name && Settled(lib, req, FinalState(lib, sys, steps))
      && Destroy(Run(lib, sys, steps).plane, Run(lib, sys, steps).stored, true, Delivered).err.None?
  {
    hide Decode, DesiredSpec, Stage, Encode, NameOf, PackHash, ConfigHash, PackUriOf, Run, LegalRun, Observe, Accepted;
    FirstStep(lib, p, req, a);
  }

  /**
   Success without being gone: the first apply creates the agent but loses the
   reply, nothing is recorded, and destroy finds nothing to do.
   */
  lemma OrphanOutlivesDestroy(lib: Library, p: Plane, req: Request, a: Answers)
    requires Buildable(lib, req) && !req.cfg.dryRun && NameOf(lib, req) !in p.agents && p.log.NoCalls?
    requires a.connected && a.stage.Delivered? && a.agent.LostReply? && FreshReply(p, a.version)
    ensures
      var name, sys, steps := NameOf(lib, req), System(p, Absent), [Step(req, a)];
      && Untouched(name, sys) && name != "" && LegalRun(lib, name, sys, steps)
      && var d := Destroy(Run(lib, sys, steps).plane, Run(lib, sys, steps).stored, true, Delivered);
         d.err.None? && name in d.plane.agents
  {
    hide Decode, DesiredSpec, Stage, Encode, NameOf, Run, LegalRun, Observe, Accepted;
    FirstStep(lib, p, req, a);
  }

  /**
   The endpoint ahead of the state: the first version is served but the reply is
   lost, so the selector points at a version the state does not record.
   */
  lemma UnacknowledgedIsReached(lib: Library, p: Plane, req: Request, a: Answers)
    requires Buildable(lib, req) && !req.cfg.dryRun && NameOf(lib, req) !in p.agents && p.log.NoCalls?
    requires AllGood(a.(serve := Delivered)) && a.serve.LostReply? && FreshReply(p, a.version)
    ensures
      var name, sys, steps := NameOf(lib, req), System(p, Absent), [Step(req, a)];
      && Untouched(name, sys) && name != "" && LegalRun(lib, name, sys, steps)
      && Decode(Run(lib, sys, steps).stored).Success?
      && var q := Run(lib, sys, steps).plane;
         && Observe(q.log).unacknowledged && name in q.agents && q.agents[name].served == a.version.version
         && FinalState(lib, sys, steps).servedVersion == ""
  {
    hide Decode, DesiredSpec, Stage, Encode, NameOf, Run, LegalRun, Accepted, PackUriOf;
    FirstStep(lib, p, req, a);
  }

  // ------------------------------------------------- status

  datatype Status = Deployed | NotDeployed | Degraded

  datatype Health = Healthy | Unhealthy | Missing

  datatype Report = Report(status: Status, agent: Option<Health>, endpoint: Option<Health>)

  /** deploymentStatus, from the live agent. */
  function DeploymentStatus(served: string, prior: State): Status {
    if served == "" then Degraded else if prior.inFlight.Some? then Degraded else Deployed
  }

  function EndpointHealth(served: string, prior: State): Health {
    if served == "" || prior.inFlight.Some? then Unhealthy else Healthy
  }

  /** Status, when the lookup of the recorded agent is answered by the plane as it is. */
  function StatusOf(p: Plane, prior: State): Report {
    if prior.agentName == "" then Report(NotDeployed, None, None)
    else if prior.agentName !in p.agents then Report(NotDeployed, Some(Missing), None)
    else
      var served := p.agents[prior.agentName].served;
      Report(DeploymentStatus(served, prior), Some(Healthy), Some(EndpointHealth(served, prior)))
  }

  /**
   The report for every plane and state: nothing recorded is not deployed; a
   recorded agent that is gone is not deployed and missing; one that serves
   nothing, or next to a version in flight, is healthy but degraded; and any other
   is deployed.
   */
  lemma StatusReports(p: Plane, s: State)
    ensures s.agentName == "" ==> StatusOf(p, s) == Report(NotDeployed, None, None)
    ensures s.agentName != "" && s.agentName !in p.agents ==> StatusOf(p, s) == Report(NotDeployed, Some(Missing), None)
    ensures s.agentName != "" && s.agentName in p.agents ==>
              StatusOf(p, s) == if p.agents[s.agentName].served == "" || s.inFlight.Some?
                                then Report(Degraded, Some(Healthy), Some(Unhealthy))
                                else Report(Deployed, Some(Healthy), Some(Healthy))
  {
  }

  /** So a caller that keeps the state after a destroy is told, however often it applies, that the agent is missing. */
  lemma DestroyedIsMissing(lib: Library, name: string, sys: System, steps: seq<Step>, fate: Fate, more: seq<Step>)
    requires Untouched(name, sys) && LegalRun(lib, name, sys, steps) && name != ""
    requires Decode(Run(lib, sys, steps).stored).Success? ==> FinalState(lib, sys, steps).agentName != ""
    requires Destroy(Run(lib, sys, steps).plane, Run(lib, sys, steps).stored, true, fate).err.None?
    requires forall i :: 0 <= i < |more| && Accepted(lib, more[i].req) ==> NameOf(lib, more[i].req) == name
    ensures
      var gone := System(Destroy(Run(lib, sys, steps).plane, Run(lib, sys, steps).stored, true, fate).plane,
                         Run(lib, sys, steps).stored);
      && Decode(Run(lib, gone, more).stored).Success?
      && StatusOf(Run(lib, gone, more).plane, FinalState(lib, gone, more)) == Report(NotDeployed, Some(Missing), None)
  {
    hide Run, LegalRun, Decode, Observe, Accepted, NameOf, Destroy, StatusOf;
    WholeRunSafety(lib, name, sys, steps);
    DestroyedButRemembered(lib, name, sys, steps, fate, more);
    var before := Run(lib, sys, steps);
    var gone := System(Destroy(before.plane, before.stored, true, fate).plane, before.stored);
    StrandedForever(lib, name, gone, more);
    StatusReports(Run(lib, gone, more).plane, FinalState(lib, gone, more));
  }

  /** The report, in terms of the calls that were made. */
  ghost predicate ReportAgrees(name: string, p: Plane, s: State) {
    var o, report := Observe(p.log), StatusOf(p, s);
    && report.agent != Some(Missing)
    && (report.status.NotDeployed? <==> o.created == 0)
    && (report.status.Deployed? <==> o.selector != "" && o.pending.None?)
    && (report.status.Deployed? <==> report.agent == Some(Healthy) && report.endpoint == Some(Healthy))
    && (report.status.Deployed? ==>
          name in p.agents && (p.agents[name].served == s.servedVersion <==> !o.unacknowledged))
  }

  lemma KeptReportAgrees(name: string, p: Plane, s: State)
    requires LogKept(name, p, s) && name != ""
    ensures ReportAgrees(name, p, s)
  {
    hide Observe, History;
    LogKeptMeans(name, p, s);
  }

  /**
   What status says after any run of applies: never a missing agent; not
   deployed exactly when no agent creation was acknowledged; deployed exactly
   when the endpoint points at some version and the last version reply was for an
   active one or a dry run has handed a state back since. Deployed does not mean that what is recorded is what is
   served: that takes a last endpoint call that was acknowledged.
   */
  lemma StatusFollowsLog(lib: Library, name: string, sys: System, steps: seq<Step>)
    requires Untouched(name, sys) && LegalRun(lib, name, sys, steps) && name != ""
    ensures Decode(Run(lib, sys, steps).stored).Success?
    ensures ReportAgrees(name, Run(lib, sys, steps).plane, FinalState(lib, sys, steps))
  {
    hide LogKept, VersionsKept, Run, Decode, ReportAgrees;
    RunKeeps(lib, name, sys, steps);
    KeptReportAgrees(name, Run(lib, sys, steps).plane, FinalState(lib, sys, steps));
  }
}
