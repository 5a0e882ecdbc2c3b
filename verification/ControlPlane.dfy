/**
 The control plane the adapter drives. Nothing is assumed about when a call
 fails: each call has a fate chosen by the environment, and a failed call may
 still have taken effect. The plane keeps the log of every call it was sent.
 */
module ControlPlane {
  import opened AgentSpecs

  const STATUS_CREATING := "creating"
  const STATUS_ACTIVE := "active"
  const STATUS_FAILED := "failed"

  /** Delivered: done and acknowledged. LostReply: done, but reported as an error. Refused: not done. */
  datatype Fate = Delivered | LostReply | Refused

  /** A version may also come back with any status at all. */
  datatype VersionReply =
    | Replied(version: string, status: string)
    | VersionLost(version: string)
    | NotCreated

  /**
   What the log holds: the calls, and the boundaries between operations. An
   apply that is about to start leaves one; so does a dry run that has handed a
   state back, although its calls went elsewhere.
   */
  datatype Call =
    | Boundary(dry: bool)
    | AgentCall(name: string, fate: Fate)
    | VersionCall(name: string, reply: VersionReply)
    | EndpointCall(name: string, version: string, fate: Fate)
    | StageCall(uri: string, fate: Fate)
    | DeleteCall(name: string, fate: Fate)

  datatype CallLog = NoCalls | Then(earlier: CallLog, last: Call)

  /**
   A version as it was created. The hashes are never sent: they label the version
   with what the adapter held its request to be at that moment.
   */
  datatype VersionRecord = VersionRecord(spec: AgentSpec, packHash: string, configHash: string)

  datatype AgentRecord = AgentRecord(served: string, protocols: seq<string>, versions: map<string, VersionRecord>)

  datatype Plane = Plane(agents: map<string, AgentRecord>, blobs: map<string, string>, log: CallLog)

  function Marked(p: Plane, dry: bool): Plane {
    p.(log := Then(p.log, Boundary(dry)))
  }

  /** An existing agent is left alone, whatever the caller is told. */
  function AgentCreated(p: Plane, spec: AgentSpec, fate: Fate): Plane {
    p.(log := Then(p.log, AgentCall(spec.name, fate)),
       agents := if fate.Refused? || spec.name in p.agents then p.agents
                 else p.agents[spec.name := AgentRecord("", [], map[])])
  }

  function VersionCreated(p: Plane, name: string, made: VersionRecord, reply: VersionReply): Plane {
    p.(log := Then(p.log, VersionCall(name, reply)),
       agents := if reply.NotCreated? || name !in p.agents then p.agents
                 else p.agents[name := p.agents[name].(versions := p.agents[name].versions[reply.version := made])])
  }

  /** The endpoint of an agent that does not exist cannot be set. */
  function EndpointFate(p: Plane, name: string, fate: Fate): Fate {
    if name in p.agents then fate else Refused
  }

  function EndpointSet(p: Plane, name: string, version: string, protocols: seq<string>, fate: Fate): Plane {
    var actual := EndpointFate(p, name, fate);
    p.(log := Then(p.log, EndpointCall(name, version, actual)),
       agents := if actual.Refused? then p.agents
                 else p.agents[name := p.agents[name].(served := version, protocols := protocols)])
  }

  function ObjectStaged(p: Plane, uri: string, data: string, fate: Fate): Plane {
    p.(log := Then(p.log, StageCall(uri, fate)),
       blobs := if fate.Refused? then p.blobs else p.blobs[uri := data])
  }

  /** Deleting an agent deletes its versions; deleting an absent one succeeds. */
  function AgentDeleted(p: Plane, name: string, fate: Fate): Plane {
    p.(log := Then(p.log, DeleteCall(name, fate)), agents := if fate.Refused? then p.agents else p.agents - {name})
  }

  /** The client an operation holds; the last argument of each call is its fate. */
  class Client {
    var plane: Plane

    constructor (p: Plane)
      ensures plane == p
    {
      plane := p;
    }

    method CreateAgent(spec: AgentSpec, fate: Fate) returns (ok: bool)
      modifies this
      ensures plane == AgentCreated(old(plane), spec, fate)
      ensures ok == fate.Delivered? && plane.blobs == old(plane.blobs)
      ensures plane.log == Then(old(plane.log), AgentCall(spec.name, fate))
      ensures fate.Refused? || spec.name in old(plane.agents) ==> plane.agents == old(plane.agents)
      ensures !fate.Refused? && spec.name !in old(plane.agents) ==>
                plane.agents == old(plane.agents)[spec.name := AgentRecord("", [], map[])]
    {
      plane := AgentCreated(plane, spec, fate);
      ok := fate.Delivered?;
    }

    /** A version can be there although its creation was reported as an error, but it never serves by itself. */
    method CreateVersion(name: string, made: VersionRecord, reply: VersionReply)
      modifies this
      ensures plane == VersionCreated(old(plane), name, made, reply)
      ensures plane.log == Then(old(plane.log), VersionCall(name, reply)) && plane.blobs == old(plane.blobs)
      ensures reply.NotCreated? || name !in old(plane.agents) ==> plane.agents == old(plane.agents)
      ensures !reply.NotCreated? && name in old(plane.agents) ==>
                && plane.agents.Keys == old(plane.agents.Keys)
                && (forall n :: n in plane.agents && n != name ==> plane.agents[n] == old(plane.agents)[n])
                && var was, now := old(plane.agents)[name], plane.agents[name];
                   && now.served == was.served && now.protocols == was.protocols
                   && reply.version in now.versions && now.versions[reply.version] == made
                   && now.versions - {reply.version} == was.versions - {reply.version}
    {
      plane := VersionCreated(plane, name, made, reply);
    }

    /** Selector and protocols move together or not at all, and only for an agent that exists. */
    method SetEndpoint(name: string, version: string, protocols: seq<string>, fate: Fate) returns (ok: bool)
      modifies this
      ensures plane == EndpointSet(old(plane), name, version, protocols, fate)
      ensures ok == (fate.Delivered? && name in old(plane.agents)) && plane.blobs == old(plane.blobs)
      ensures plane.log == Then(old(plane.log),
                                EndpointCall(name, version, if name in old(plane.agents) then fate else Refused))
      ensures fate.Refused? || name !in old(plane.agents) ==> plane.agents == old(plane.agents)
      ensures !fate.Refused? && name in old(plane.agents) ==>
                && plane.agents.Keys == old(plane.agents.Keys)
                && (forall n :: n in plane.agents && n != name ==> plane.agents[n] == old(plane.agents)[n])
                && var was, now := old(plane.agents)[name], plane.agents[name];
                   now.served == version && now.protocols == protocols && now.versions == was.versions
    {
      ok := EndpointFate(plane, name, fate).Delivered?;
      plane := EndpointSet(plane, name, version, protocols, fate);
    }

    method StageObject(uri: string, data: string, fate: Fate) returns (ok: bool)
      modifies this
      ensures plane == ObjectStaged(old(plane), uri, data, fate)
      ensures ok == fate.Delivered? && plane.agents == old(plane.agents)
      ensures plane.log == Then(old(plane.log), StageCall(uri, fate))
      ensures plane.blobs == if fate.Refused? then old(plane.blobs) else old(plane.blobs)[uri := data]
    {
      plane := ObjectStaged(plane, uri, data, fate);
      ok := fate.Delivered?;
    }

    method DeleteAgent(name: string, fate: Fate) returns (ok: bool)
      modifies this
      ensures plane == AgentDeleted(old(plane), name, fate)
      ensures ok == fate.Delivered? && plane.blobs == old(plane.blobs)
      ensures plane.log == Then(old(plane.log), DeleteCall(name, fate))
      ensures plane.agents == if fate.Refused? then old(plane.agents) else old(plane.agents) - {name}
    {
      plane := AgentDeleted(plane, name, fate);
      ok := fate.Delivered?;
    }
  }
}
