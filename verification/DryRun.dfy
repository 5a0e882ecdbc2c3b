/**
 The in-memory control plane of a dry run: a heap of agent records behind an
 object that hands out copies, and what it means that every operation gets a
 new one.
 */
module DryRun {
  import opened Wrappers
  import opened AdapterState
  import opened AgentSpecs
  import opened Apply
  import opened ControlPlane
  import opened Convergence
  import opened Requests
  import opened Runs

  class Agent {
    var name: string
    var served: string
    var metadata: map<string, string>

    constructor (name: string, served: string, metadata: map<string, string>)
      ensures this.name == name && this.served == served && this.metadata == metadata
    {
      this.name, this.served, this.metadata := name, served, metadata;
    }

    function View(): AgentView
      reads this
    {
      AgentView(name, served, metadata)
    }
  }

  datatype AgentView = AgentView(name: string, served: string, metadata: map<string, string>)

  function Decimal(n: nat): string {
    if n < 10 then [Figure(n)] else Decimal(n / 10) + [Figure(n % 10)]
  }

  function Figure(n: nat): char
    requires n < 10
  {
    ('0' as int + n) as char
  }

  /** Simulated version ids are never reused. */
  lemma {:induction false} DecimalIsInjective(m: nat, n: nat)
    requires Decimal(m) == Decimal(n)
    ensures m == n
    decreases m
  {
    assert Decimal(m)[|Decimal(m)| - 1] == Figure(m % 10);
    assert Decimal(n)[|Decimal(n)| - 1] == Figure(n % 10);
    DecimalIsNotEmpty(m / 10);
    DecimalIsNotEmpty(n / 10);
    if m >= 10 && n >= 10 {
      assert Decimal(m)[..|Decimal(m)| - 1] == Decimal(m / 10);
      assert Decimal(n)[..|Decimal(n)| - 1] == Decimal(n / 10);
      DecimalIsInjective(m / 10, n / 10);
    }
  }

  lemma DecimalIsNotEmpty(n: nat)
    ensures Decimal(n) != ""
  {
  }

  class DryRunClient {
    var agents: map<string, Agent>
    var nextVersion: nat

    /** No record is filed under two names. */
    ghost predicate Valid()
      reads this, agents.Values
    {
      forall n, m :: n in agents && m in agents && n != m ==> agents[n] != agents[m]
    }

    ghost function View(): map<string, AgentView>
      reads this, agents.Values
    {
      map n | n in agents :: agents[n].View()
    }

    constructor ()
      ensures Valid() && View() == map[] && nextVersion == 1 && agents == map[]
    {
      agents, nextVersion := map[], 1;
    }

    /** cloneAgent: the caller never holds the plane's own record. */
    static method CloneAgent(a: Agent) returns (copy: Agent)
      ensures fresh(copy) && copy.View() == a.View()
    {
      copy := new Agent(a.name, a.served, a.metadata);
    }

    method CreateAgent(spec: AgentSpec) returns (r: Agent)
      requires Valid()
      modifies this
      ensures Valid() && View() == old(View())[spec.name := AgentView(spec.name, "", spec.metadata)]
      ensures nextVersion == old(nextVersion)
      ensures fresh(r) && r !in agents.Values && r.View() == AgentView(spec.name, "", spec.metadata)
      ensures fresh(agents.Values - old(agents.Values))
    {
      var agent := new Agent(spec.name, "", spec.metadata);
      agents := agents[spec.name := agent];
      r := CloneAgent(agent);
    }

    /** Always active at once, and already pointed at: before any endpoint call. */
    method CreateVersion(name: string) returns (version: string, status: string)
      requires Valid()
      modifies this`nextVersion, agents.Values
      ensures Valid() && agents == old(agents) && nextVersion == old(nextVersion) + 1
      ensures version == Decimal(old(nextVersion)) && status == STATUS_ACTIVE
      ensures View() == if name in old(View()) then old(View())[name := old(View())[name].(served := version)]
                        else old(View())
    {
      version := Decimal(nextVersion);
      nextVersion := nextVersion + 1;
      if name in agents {
        agents[name].served := version;
      }
      status := STATUS_ACTIVE;
    }

    method GetAgent(name: string) returns (r: Option<Agent>)
      requires Valid()
      ensures r.Some? <==> name in View()
      ensures r.Some? ==> fresh(r.value) && r.value !in agents.Values && r.value.View() == View()[name]
    {
      if name !in agents {
        return None;
      }
      var copy := CloneAgent(agents[name]);
      r := Some(copy);
    }

    method SetEndpoint(name: string, version: string) returns (ok: bool)
      requires Valid()
      modifies agents.Values
      ensures Valid() && agents == old(agents) && nextVersion == old(nextVersion)
      ensures ok == (name in old(View()))
      ensures View() == if ok then old(View())[name := old(View())[name].(served := version)] else old(View())
    {
      if name !in agents {
        return false;
      }
      agents[name].served := version;
      ok := true;
    }

    method DeleteAgent(name: string)
      requires Valid()
      modifies this`agents
      ensures Valid() && View() == old(View()) - {name} && nextVersion == old(nextVersion)
    {
      agents := agents - {name};
    }
  }

  /** Holding on to a returned agent gives no access to the plane. */
  method ScribbleOnCopy(client: DryRunClient, name: string, served: string)
    requires client.Valid()
    ensures client.Valid() && client.View() == old(client.View())
  {
    var r := client.GetAgent(name);
    if r.Some? {
      r.value.served := served;
    }
  }

  // ------------------------------------------------- one operation, one plane

  /**
   The calls of one operation against the object are answered as DRY_ANSWERS
   says: the same version reply, and an acknowledged endpoint exactly when the
   modelled plane gives one.
   */
  method SimulatedCalls(spec: AgentSpec, recorded: bool) returns (reply: VersionReply, served: bool)
    ensures reply == DRY_ANSWERS.version
    ensures
      var p := if recorded then EMPTY_PLANE else AgentCreated(EMPTY_PLANE, spec, DRY_ANSWERS.agent);
      served == EndpointFate(p, spec.name, DRY_ANSWERS.serve).Delivered?
  {
    var client := new DryRunClient();
    if !recorded {
      var _ := client.CreateAgent(spec);
    }
    var version, status := client.CreateVersion(spec.name);
    served := client.SetEndpoint(spec.name, version);
    reply := Replied(version, status);
  }

  /**
   A dry run of a first deploy succeeds and serves version 1; one over recorded
   state either finds nothing to do or fails at the endpoint, because the plane
   it talks to has never heard of the recorded agent.
   */
  lemma DryRunOutcomes(lib: Library, req: Request, stored: RawState)
    requires Accepted(lib, req) && DesiredSpec(lib, req).Success? && Decode(stored).Success?
    ensures
      var r, prior := ApplyRequest(lib, EMPTY_PLANE, req, stored, DRY_ANSWERS), Decode(stored).value;
      && Decode(r.out).Success?
      && var s := Decode(r.out).value;
         if prior.agentName == "" && VersionNeeded(InputFor(lib, req, DesiredSpec(lib, req).value), prior) then
           r.err.None? && s.agentName == NameOf(lib, req) && s.servedVersion == "1"
         else if VersionNeeded(InputFor(lib, req, DesiredSpec(lib, req).value), prior) then
           r.err == Some(NotServed) && s.servedVersion == prior.servedVersion && s.inFlight.None?
         else r.err.None? && s.servedVersion == prior.servedVersion
  {
    hide Decode, Encode, Accepted, DesiredSpec, NameOf, PackHash, ConfigHash, Gather, PackUriOf, AdapterState.Valid;
    GatherSplits(lib, req, stored);
    Submitted(lib, EMPTY_PLANE, req, stored, DRY_ANSWERS);
    var prior, x := Decode(stored).value, InputFor(lib, req, DesiredSpec(lib, req).value);
    OriginOf(lib, req, x.spec);
    DecodedIsValid(stored);
    var staged := Stage(lib, EMPTY_PLANE, req, prior, Delivered);
    StageKeepsAgents(lib, EMPTY_PLANE, req, prior, Delivered);
    KeepsValid(lib, staged, x, prior, DRY_ANSWERS);
    StateRoundTrip(ApplyAgent(lib, staged, x, prior, DRY_ANSWERS).state);
  }

  /**
   A caller that stores the state a first dry run returns can never deploy from
   it: no run of real applies creates the agent that state claims to have.
   */
  lemma DryRunStateIsADeadEnd(lib: Library, req: Request, plane: Plane, steps: seq<Step>)
    requires Accepted(lib, req) && DesiredSpec(lib, req).Success? && NameOf(lib, req) !in plane.agents
    requires forall i :: 0 <= i < |steps| && Accepted(lib, steps[i].req) ==>
               NameOf(lib, steps[i].req) == NameOf(lib, req)
    ensures
      var sys := System(plane, ApplyRequest(lib, EMPTY_PLANE, req, Absent, DRY_ANSWERS).out);
      Run(lib, sys, steps).plane.agents == plane.agents
  {
    hide Accepted, NameOf, ApplyRequest, DesiredSpec;
    DryRunOutcomes(lib, req, Absent);
    NamesAreNotEmpty(lib, req);
    var sys := System(plane, ApplyRequest(lib, EMPTY_PLANE, req, Absent, DRY_ANSWERS).out);
    StrandedForever(lib, NameOf(lib, req), sys, steps);
  }
}
