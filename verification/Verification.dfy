/**
 What a plan believes: how the answer to a lookup of the recorded agent is read,
 and when it may discard what is recorded.
 */
module Verification {
  import opened Wrappers
  import opened AdapterState
  import opened AgentSpecs
  import opened Apply
  import opened ControlPlane
  import opened Convergence
  import opened DeployConfig
  import opened Plan
  import opened Requests
  import opened Runs

  // ------------------------------------------------- reading an answer

  datatype LookupError = AgentMissing | ProjectMissing | OtherFailure

  /** The wire shape of an agent: an endpoint, its selector and the selector's rules may be absent. */
  datatype AgentWire = AgentWire(rules: Option<seq<string>>)

  datatype Body = Unreadable | Unparsed | ErrorEnvelope(code: string, message: string) | AgentBody(agent: AgentWire)

  datatype HttpAnswer = NoAnswer | Answer(status: int, body: Body)

  const AGENT_NOT_FOUND_CODE := "not_found"
  const PROJECT_MISSING_MARKER := "project does not exist"

  predicate OccursAt(s: string, part: string, i: nat) {
    i + |part| <= |s| && s[i..i + |part|] == part
  }

  predicate Contains(s: string, part: string) {
    exists i :: 0 <= i <= |s| && OccursAt(s, part, i)
  }

  function LowerText(s: string, lower: char -> char): string {
    seq(|s|, i requires 0 <= i < |s| => lower(s[i]))
  }

  /** What a 404 means. A body that cannot be read still means the agent is not there. */
  function NotFoundError(lower: char -> char, body: Body): LookupError {
    match body
    case Unreadable => AgentMissing
    case Unparsed => AgentMissing
    case AgentBody(_) => AgentMissing  // an envelope with neither code nor message
    case ErrorEnvelope(code, message) =>
      if code == AGENT_NOT_FOUND_CODE then AgentMissing
      else if Contains(LowerText(message, lower), PROJECT_MISSING_MARKER) then ProjectMissing
      else AgentMissing
  }

  /** The version the selector's first rule names; there is never a second rule to weigh. */
  function ServedOf(w: AgentWire): string {
    if w.rules.Some? && |w.rules.value| > 0 then w.rules.value[0] else ""
  }

  /** The served version of the agent looked up. */
  function GetAgent(lower: char -> char, http: HttpAnswer): Result<string, LookupError> {
    match http
    case NoAnswer => Failure(OtherFailure)
    case Answer(status, body) =>
      if status == 404 then Failure(NotFoundError(lower, body))
      else if status != 200 then Failure(OtherFailure)
      else
        match body
        case AgentBody(agent) => Success(ServedOf(agent))
        case ErrorEnvelope(_, _) => Success("")  // an object without an endpoint is an agent serving nothing
        case _ => Failure(OtherFailure)
  }

  // ------------------------------------------------- verification

  datatype Existence = ExistsYes | ExistsNo | ExistsUnknown

  datatype Advisory = UnverifiedState | EndpointRepointed

  datatype Verified = Verified(state: State, drift: seq<Change>, advisories: seq<Advisory>)

  /** A genuine miss: a 404 that does not speak of a missing project under some other code. */
  predicate GenuineMiss(lower: char -> char, http: HttpAnswer) {
    && http.Answer? && http.status == 404
    && (http.body.ErrorEnvelope? && http.body.code != "not_found" ==>
          !Contains(LowerText(http.body.message, lower), PROJECT_MISSING_MARKER))
  }

  /**
   What each answer means: found, with the version the first rule names if there
   is one, only for a 200 whose body is an object; the agent missing for a genuine
   miss; the project missing for any other 404; and a failure for all the rest.
   */
  lemma LookupMeans(lower: char -> char, http: HttpAnswer)
    ensures
      var r, miss := GetAgent(lower, http), GenuineMiss(lower, http);
      && (r == Failure(AgentMissing) <==> miss)
      && (r == Failure(ProjectMissing) <==> http.Answer? && http.status == 404 && !miss)
      && (r.Success? <==> http.Answer? && http.status == 200 && (http.body.AgentBody? || http.body.ErrorEnvelope?))
      && (r.Success? ==>
            r.value == if http.body.AgentBody? && http.body.agent.rules.Some? && http.body.agent.rules.value != []
                       then http.body.agent.rules.value[0] else "")
  {
    hide Contains, LowerText;
  }

  /** The marker counts wherever it stands and however it is capitalized. */
  lemma MarkerAnywhere(lower: char -> char, before: string, marker: string, after: string)
    requires |marker| == 22 && forall i :: 0 <= i < 22 ==> lower(marker[i]) == "project does not exist"[i]
    ensures Contains(LowerText(before + marker + after, lower), PROJECT_MISSING_MARKER)
  {
    var text, i := LowerText(before + marker + after, lower), |before|;
    assert LowerText(marker, lower) == PROJECT_MISSING_MARKER;
    assert text[i..i + |marker|] == LowerText(marker, lower);
    assert OccursAt(text, PROJECT_MISSING_MARKER, i);
  }

  /** What depended on an agent that is gone. */
  function Cleared(prior: State): State {
    prior.(agentName := "", servedVersion := "", priorVersions := [], inFlight := None)
  }

  /** The shared reconciler drops a resource only when it is known not to exist, and reports it as drifted. */
  function Reconciled(e: Existence): (bool, seq<Change>) {
    if e.ExistsNo? then (false, [Change(AgentResource, Drifted)]) else (true, [])
  }

  /** The probe keeps what it found, because the caller needs more than the existence. */
  class AgentProbe {
    var found: Option<string>
    var err: Option<LookupError>

    constructor ()
      ensures found.None? && err.None?
    {
      found, err := None, None;
    }

    method Exists(reply: Result<string, LookupError>) returns (e: Existence)
      modifies this
      ensures e == match reply
                   case Success(_) => ExistsYes
                   case Failure(AgentMissing) => ExistsNo
                   case Failure(_) => ExistsUnknown
      ensures reply.Success? ==> found == Some(reply.value) && err == old(err)
      ensures reply.Failure? ==> found == old(found) && err == Some(reply.error)
    {
      if reply.Failure? {
        err := Some(reply.error);
        if reply.error.AgentMissing? {
          return ExistsNo;
        }
        return ExistsUnknown;
      }
      found := Some(reply.value);
      e := ExistsYes;
    }
  }

  /** The recorded state survives everything but a genuine miss; only a missing project aborts. */
  function VerifiedPrior(dryRun: bool, connected: bool, prior: State, reply: Result<string, LookupError>)
      : Option<Verified>
  {
    if dryRun || prior.agentName == "" then Some(Verified(prior, [], []))
    else if !connected then Some(Verified(prior, [], [UnverifiedState]))
    else
      match reply
      case Failure(ProjectMissing) => None
      case Failure(AgentMissing) => Some(Verified(Cleared(prior), [Change(AgentResource, Drifted)], []))
      case Failure(OtherFailure) => Some(Verified(prior, [], [UnverifiedState]))
      case Success(served) =>
        Some(Verified(prior, [], if served == prior.servedVersion then [] else [EndpointRepointed]))
  }

  method VerifiedPriorState(dryRun: bool, connected: bool, prior: State, reply: Result<string, LookupError>)
      returns (r: Option<Verified>)
    ensures r == VerifiedPrior(dryRun, connected, prior, reply)
  {
    if dryRun || prior.agentName == "" {
      return Some(Verified(prior, [], []));
    }
    if !connected {
      return Some(Verified(prior, [], [UnverifiedState]));
    }
    var probe := new AgentProbe();
    var e := probe.Exists(reply);
    var (survives, drift) := Reconciled(e);
    if probe.err == Some(ProjectMissing) {
      return None;
    }
    if !survives {
      return Some(Verified(Cleared(prior), drift, []));
    }
    if probe.found.None? {
      return Some(Verified(prior, [], [UnverifiedState]));
    }
    if probe.found.value != prior.servedVersion {
      return Some(Verified(prior, [], [EndpointRepointed]));
    }
    r := Some(Verified(prior, [], []));
  }

  // ------------------------------------------------- the plan operation

  datatype PlanError = PlanRejected(cause: RequestError) | ProjectNotFound

  datatype PlanResponse = PlanResponse(changes: seq<Change>, advisories: seq<Advisory>)

  function PlanOperation(lib: Library, req: Request, stored: RawState, connected: bool, http: HttpAnswer)
      : Result<PlanResponse, PlanError>
  {
    match Gather(lib, req, stored)
    case Failure(e) => Failure(PlanRejected(e))
    case Success(c) =>
      match VerifiedPrior(req.cfg.dryRun, connected, c.prior, GetAgent(lib.lower, http))
      case None => Failure(ProjectNotFound)
      case Some(v) =>
        Success(PlanResponse(
          BuildPlan(PlanInput(v.state, c.packHash, c.configHash, c.delivery, v.drift)), v.advisories))
  }

  /** Plan: gather, verify, diff. */
  method PlanSteps(lib: Library, req: Request, stored: RawState, connected: bool, http: HttpAnswer)
      returns (r: Result<PlanResponse, PlanError>)
    ensures r == PlanOperation(lib, req, stored, connected, http)
  {
    hide Gather, GetAgent, BuildPlan;
    var gathered := Gather(lib, req, stored);
    if gathered.Failure? {
      return Failure(PlanRejected(gathered.error));
    }
    var c := gathered.value;
    var verified := VerifiedPriorState(req.cfg.dryRun, connected, c.prior, GetAgent(lib.lower, http));
    if verified.None? {
      return Failure(ProjectNotFound);
    }
    var v := verified.value;
    var changes := AppendChanges(PlanInput(v.state, c.packHash, c.configHash, c.delivery, v.drift));
    r := Success(PlanResponse(changes, v.advisories));
  }

  /**
   Verification safety, from the HTTP answer to the plan. For a request that
   names a recorded agent: the plan re-creates the agent exactly on a genuine
   miss; on any other answer it is the plan of the recorded state, with an
   advisory unless the agent was found serving what is recorded; and it fails
   exactly when the project is missing.
   */
  lemma VerificationSafety(lib: Library, req: Request, stored: RawState, http: HttpAnswer)
    requires Accepted(lib, req) && Decode(stored).Success? && !req.cfg.dryRun
    requires Decode(stored).value.agentName != ""
    ensures
      var r, prior := PlanOperation(lib, req, stored, true, http), Decode(stored).value;
      var miss, reply := GenuineMiss(lib.lower, http), GetAgent(lib.lower, http);
      && (r.Failure? <==> http.Answer? && http.status == 404 && !miss)
      && (r.Success? ==>
            && (Change(AgentResource, Create) in r.value.changes <==> miss)
            && (!miss ==> r.value.changes == PlanOf(lib, req, prior))
            && (miss ==> r.value.changes == [Change(AgentResource, Drifted)] + PlanOf(lib, req, Cleared(prior)))
            && (r.value.advisories == [] <==> miss || reply == Success(prior.servedVersion))
            && (!miss && reply.Failure? ==> r.value.advisories == [UnverifiedState])
            && (reply.Success? && reply.value != prior.servedVersion ==> r.value.advisories == [EndpointRepointed]))
  {
    hide Decode, Accepted, Gather, Contains, LowerText, PlanOf, BuildPlan;
    GatherSplits(lib, req, stored);
    PlanIsFromGather(lib, req, stored);
    PlanEntries(lib, req, Decode(stored).value);
    var c := Gather(lib, req, stored).value;
    DriftComesFirst(lib, req, c, Cleared(c.prior));
    PlanEntries(lib, req, Cleared(c.prior));
  }

  lemma DriftComesFirst(lib: Library, req: Request, c: PlanContext, prior: State)
    requires c.packHash == PackHash(lib, req) && c.configHash == ConfigHash(lib, req)
    requires c.delivery == DecidePackDelivery(req.pack, req.cfg)
    ensures
      var gone := Change(AgentResource, Drifted);
      BuildPlan(PlanInput(prior, c.packHash, c.configHash, c.delivery, [gone])) == [gone] + PlanOf(lib, req, prior)
  {
  }

  lemma PlanIsFromGather(lib: Library, req: Request, stored: RawState)
    requires Gather(lib, req, stored).Success?
    ensures
      var c := Gather(lib, req, stored).value;
      && BuildPlan(PlanInput(c.prior, c.packHash, c.configHash, c.delivery, [])) == PlanOf(lib, req, c.prior)
      && c.packHash == PackHash(lib, req) && c.configHash == ConfigHash(lib, req)
      && c.delivery == DecidePackDelivery(req.pack, req.cfg)
  {
  }

  /**
   The plan that is not verified: for an accepted request over readable state, a
   dry run, a first deploy and a failed connection all give the plan of the
   recorded state, with an advisory exactly when the connection is what is missing.
   */
  lemma PlanUnverified(lib: Library, req: Request, stored: RawState, connected: bool, http: HttpAnswer)
    requires Accepted(lib, req) && Decode(stored).Success?
    requires req.cfg.dryRun || Decode(stored).value.agentName == "" || !connected
    ensures
      var r, prior := PlanOperation(lib, req, stored, connected, http), Decode(stored).value;
      && r.Success? && r.value.changes == PlanOf(lib, req, prior)
      && r.value.advisories == if req.cfg.dryRun || prior.agentName == "" then [] else [UnverifiedState]
  {
    hide Decode, Accepted, Gather, GetAgent, PlanOf, BuildPlan;
    GatherSplits(lib, req, stored);
    PlanIsFromGather(lib, req, stored);
    PriorIsDecoded(lib, req, stored);
  }

  /** A request that is refused has no plan, for the reason it is refused. */
  lemma PlanRefuses(lib: Library, req: Request, stored: RawState, connected: bool, http: HttpAnswer)
    ensures
      var r, gathered := PlanOperation(lib, req, stored, connected, http), Gather(lib, req, stored);
      && (gathered.Failure? ==> r == Failure(PlanRejected(gathered.error)))
      && (gathered.Success? && r.Failure? ==> r.error == ProjectNotFound)
  {
    hide Gather, GetAgent, BuildPlan;
  }

  /** On a genuine miss everything is planned from scratch. */
  lemma MissStartsOver(lib: Library, req: Request, prior: State)
    ensures PlanOf(lib, req, Cleared(prior)) ==
            [Change(AgentResource, Create), Change(VersionResource, Create), Change(EndpointResource, Create)]
            + (if FitsInline(req) then [] else [Change(PackResource, Create)])
    ensures Cleared(prior).packHash == prior.packHash && Cleared(prior).configHash == prior.configHash
    ensures Cleared(prior).stagedPackUri == prior.stagedPackUri && Cleared(prior).unknown == prior.unknown
  {
    hide PackHash, ConfigHash;
  }

  /**
   A 404 under the agents API's own code is conclusive all the way to the plan:
   no message can make it read as a missing project.
   */
  lemma OwnCodeIsConclusive(lib: Library, req: Request, stored: RawState, message: string)
    requires Accepted(lib, req) && Decode(stored).Success? && !req.cfg.dryRun
    requires Decode(stored).value.agentName != ""
    ensures
      var r := PlanOperation(lib, req, stored, true, Answer(404, ErrorEnvelope(AGENT_NOT_FOUND_CODE, message)));
      && r.Success? && r.value.advisories == []
      && r.value.changes == [Change(AgentResource, Drifted)] + PlanOf(lib, req, Cleared(Decode(stored).value))
  {
    hide Decode, Accepted, PlanOperation, PlanOf;
    VerificationSafety(lib, req, stored, Answer(404, ErrorEnvelope(AGENT_NOT_FOUND_CODE, message)));
  }

  /**
   The plan that is shown covers the apply that follows, whatever the lookup
   answered: drift is only ever added to it, and clearing the state only asks for
   more.
   */
  lemma ShownPlanCoversApply(lib: Library, p: Plane, req: Request, stored: RawState, connected: bool, http: HttpAnswer,
                             a: Answers)
    requires Decode(stored).Success? && PlanOperation(lib, req, stored, connected, http).Success?
    ensures
      var shown := PlanOperation(lib, req, stored, connected, http).value.changes;
      AllAnnounced(shown, ApplyRequest(lib, p, req, stored, a).plane.log, p.log)
  {
    hide Decode, Gather, GetAgent, PlanOf, BuildPlan, ApplyRequest, AllAnnounced, PackHash, ConfigHash;
    var shown, prior := PlanOperation(lib, req, stored, connected, http).value.changes, Decode(stored).value;
    GatherSplits(lib, req, stored);
    PlanIsFromGather(lib, req, stored);
    var c := Gather(lib, req, stored).value;
    PriorIsDecoded(lib, req, stored);
    DriftComesFirst(lib, req, c, Cleared(c.prior));
    PlanCoversNeeds(lib, req, prior);
    PlanCoversNeeds(lib, req, Cleared(prior));
    CoveringAnnounces(lib, shown, p, req, stored, a);
  }

  lemma PriorIsDecoded(lib: Library, req: Request, stored: RawState)
    requires Gather(lib, req, stored).Success?
    ensures Decode(stored) == Success(Gather(lib, req, stored).value.prior)
  {
  }

  /**
   What the plan sees, the apply does not: when the recorded agent is gone the
   plan announces its re-creation, yet the apply, which reads the recorded state
   unverified, makes no agent call and leaves the project without one.
   */
  lemma DriftIsPlannedNotApplied(lib: Library, p: Plane, req: Request, stored: RawState, http: HttpAnswer, a: Answers)
    requires Accepted(lib, req) && Decode(stored).Success? && !req.cfg.dryRun
    requires Decode(stored).value.agentName != "" && NameOf(lib, req) !in p.agents
    requires GenuineMiss(lib.lower, http)
    ensures
      var r := PlanOperation(lib, req, stored, true, http);
      r.Success? && Change(AgentResource, Create) in r.value.changes
    ensures ApplyRequest(lib, p, req, stored, a).plane.agents == p.agents
    ensures Observe(ApplyRequest(lib, p, req, stored, a).plane.log).created == Observe(p.log).created
  {
    hide Decode, Accepted, ApplyAgent, PlanOperation, GenuineMiss, Encode, DesiredSpec, NameOf, Gather, PackUriOf;
    VerificationSafety(lib, req, stored, http);
    GatherSplits(lib, req, stored);
    var prior := Decode(stored).value;
    if a.connected && DesiredSpec(lib, req).Success? {
      Submitted(lib, p, req, stored, a);
      DecodedIsValid(stored);
      var staged := Stage(lib, p, req, prior, a.stage);
      StageKeepsAgents(lib, p, req, prior, a.stage);
      var x := InputFor(lib, req, DesiredSpec(lib, req).value);
      StrandedApplyAgent(lib, NameOf(lib, req), staged, x, prior, a);
      StrandedMakesNoAgentCall(lib, staged, x, prior, a);
    }
  }
}
