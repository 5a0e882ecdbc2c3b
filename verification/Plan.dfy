/**
 The plan: what an apply is announced to do, computed from recorded state
 without any I/O, and how far the announcement can be relied on.
 */
module Plan {
  import opened AdapterState
  import opened Apply
  import opened ControlPlane
  import opened Convergence
  import opened DeployConfig
  import opened AgentSpecs
  import opened Requests
  import opened Runs

  datatype Resource = AgentResource | VersionResource | EndpointResource | PackResource

  datatype Action = Create | Update | Delete | Drifted | NoChange

  datatype Change = Change(resource: Resource, action: Action)

  datatype PlanInput = PlanInput(
    prior: State, packHash: string, configHash: string, delivery: PackDelivery, drift: seq<Change>)

  datatype Reason = Reconcile(version: string) | FirstVersion | PackChanged | ConfigChanged

  /** Why a version is needed; nothing when none is. */
  function VersionReasons(x: PlanInput): seq<Reason> {
    if x.prior.inFlight.Some? then [Reconcile(x.prior.inFlight.value.version)]
    else if x.prior.servedVersion == "" then [FirstVersion]
    else
      (if x.prior.packHash != x.packHash then [PackChanged] else [])
      + (if x.prior.configHash != x.configHash then [ConfigChanged] else [])
  }

  function AgentChange(x: PlanInput): Change {
    Change(AgentResource, if x.prior.agentName == "" then Create else NoChange)
  }

  function VersionChange(x: PlanInput): Change {
    Change(VersionResource, if x.prior.inFlight.Some? then Update else Create)
  }

  function ServedVersionChange(x: PlanInput): Change {
    Change(EndpointResource, if x.prior.servedVersion == "" then Create else Update)
  }

  /** Drift first, then the agent, then what follows from a new version, then the pack. */
  function BuildPlan(x: PlanInput): seq<Change> {
    x.drift
    + [AgentChange(x)]
    + (if VersionReasons(x) == [] then [] else [VersionChange(x), ServedVersionChange(x)])
    + (if x.delivery.inline then [] else [Change(PackResource, Create)])
  }

  /** buildPlan: the entries are appended one by one. */
  method AppendChanges(x: PlanInput) returns (changes: seq<Change>)
    ensures changes == BuildPlan(x)
  {
    changes := x.drift;
    changes := changes + [AgentChange(x)];
    if VersionReasons(x) != [] {
      changes := changes + [VersionChange(x), ServedVersionChange(x)];
    }
    if !x.delivery.inline {
      changes := changes + [Change(PackResource, Create)];
    }
  }

  /** The reasons given are the true ones: one pending, none served, or each hash that moved. */
  lemma ReasonsSay(x: PlanInput)
    ensures
      var rs, s := VersionReasons(x), x.prior;
      && (forall v :: Reconcile(v) in rs <==> s.inFlight.Some? && s.inFlight.value.version == v)
      && (FirstVersion in rs <==> s.inFlight.None? && s.servedVersion == "")
      && (PackChanged in rs <==> s.inFlight.None? && s.servedVersion != "" && s.packHash != x.packHash)
      && (ConfigChanged in rs <==> s.inFlight.None? && s.servedVersion != "" && s.configHash != x.configHash)
      && |rs| <= 2
  {
  }

  /** Drift first, then the agent, a version always with its endpoint after it, the pack last. */
  lemma PlanOrder(x: PlanInput)
    ensures
      var cs, n, needed := BuildPlan(x), |x.drift|, VersionReasons(x) != [];
      && |cs| == n + 1 + (if needed then 2 else 0) + (if x.delivery.inline then 0 else 1)
      && cs[..n] == x.drift && cs[n].resource.AgentResource?
      && (needed ==> cs[n + 1].resource.VersionResource? && cs[n + 2].resource.EndpointResource?)
      && (!x.delivery.inline ==> cs[|cs| - 1] == Change(PackResource, Create))
  {
  }

  // ------------------------------------------------------------- summary

  datatype Summary = NoChanges | Counts(create: nat, update: nat, delete: nat, drifted: nat, same: nat)

  function Count(changes: seq<Change>, action: Action): nat {
    if changes == [] then 0
    else Count(changes[..|changes| - 1], action) + (if changes[|changes| - 1].action == action then 1 else 0)
  }

  lemma {:induction false} CountIsZero(changes: seq<Change>, action: Action)
    ensures Count(changes, action) == 0 <==> forall c :: c in changes ==> c.action != action
  {
    if changes != [] {
      var earlier, last := changes[..|changes| - 1], changes[|changes| - 1];
      CountIsZero(earlier, action);
      assert forall c :: c in changes <==> c in earlier || c == last;
    }
  }

  /** Every entry is counted once, under its own action. */
  lemma {:induction false} CountsAddUp(changes: seq<Change>)
    ensures Count(changes, Create) + Count(changes, Update) + Count(changes, Delete) + Count(changes, Drifted)
            + Count(changes, NoChange) == |changes|
  {
    if changes != [] {
      CountsAddUp(changes[..|changes| - 1]);
    }
  }

  /** Only entries that change nothing make a plan without changes. */
  method SummarizeChanges(changes: seq<Change>) returns (summary: Summary)
    ensures summary.NoChanges? <==> forall c :: c in changes ==> c.action.NoChange?
    ensures summary.Counts? ==>
              summary == Counts(Count(changes, Create), Count(changes, Update), Count(changes, Delete),
                                Count(changes, Drifted), Count(changes, NoChange))
              && summary.create + summary.update + summary.delete + summary.drifted + summary.same == |changes|
  {
    var create, update, delete, drifted, same := 0, 0, 0, 0, 0;
    for i := 0 to |changes|
      invariant create == Count(changes[..i], Create) && update == Count(changes[..i], Update)
      invariant delete == Count(changes[..i], Delete) && drifted == Count(changes[..i], Drifted)
      invariant same == Count(changes[..i], NoChange)
    {
      assert changes[..i + 1][..i] == changes[..i];
      match changes[i].action
      case Create => create := create + 1;
      case Update => update := update + 1;
      case Delete => delete := delete + 1;
      case Drifted => drifted := drifted + 1;
      case NoChange => same := same + 1;
    }
    assert changes[..|changes|] == changes;
    CountsAddUp(changes);
    CountIsZero(changes, Create);
    CountIsZero(changes, Update);
    CountIsZero(changes, Delete);
    CountIsZero(changes, Drifted);
    if create == 0 && update == 0 && delete == 0 && drifted == 0 {
      return NoChanges;
    }
    summary := Counts(create, update, delete, drifted, same);
  }

  // ------------------------------------------------------------- plan and apply

  /** The plan of a request against a given prior state, without drift. */
  function PlanOf(lib: Library, req: Request, prior: State): seq<Change> {
    BuildPlan(PlanInput(prior, PackHash(lib, req), ConfigHash(lib, req), DecidePackDelivery(req.pack, req.cfg), []))
  }

  /** The plan and the apply decide on the same versions. */
  lemma ReasonsAgree(prior: State, x: ApplyInput, y: PlanInput)
    requires y.prior == prior && x.packHash == y.packHash && x.configHash == y.configHash
    ensures VersionReasons(y) != [] <==> VersionNeeded(x, prior)
  {
  }

  /** A plan entry that stands for this call. */
  predicate Announced(changes: seq<Change>, c: Call) {
    match c
    case Boundary(_) => true
    case AgentCall(_, _) => Change(AgentResource, Create) in changes
    case VersionCall(_, _) => Change(VersionResource, Create) in changes || Change(VersionResource, Update) in changes
    case EndpointCall(_, _, _) =>
      Change(EndpointResource, Create) in changes || Change(EndpointResource, Update) in changes
    case StageCall(_, _) => Change(PackResource, Create) in changes
    case DeleteCall(_, _) => Change(AgentResource, Delete) in changes
  }

  /** Every call after `earlier` is announced. */
  ghost predicate AllAnnounced(changes: seq<Change>, log: CallLog, earlier: CallLog) {
    log == earlier || (log.Then? && Announced(changes, log.last) && AllAnnounced(changes, log.earlier, earlier))
  }

  lemma StageAnnounced(lib: Library, changes: seq<Change>, p: Plane, req: Request, prior: State, fate: Fate)
    requires !DecidePackDelivery(req.pack, req.cfg).inline ==> Change(PackResource, Create) in changes
    ensures AllAnnounced(changes, Stage(lib, p, req, prior, fate).log, p.log)
  {
    StagedUriIsNotEmpty(lib, req);
  }

  lemma ApplyAgentAnnounced(lib: Library, changes: seq<Change>, earlier: CallLog, p: Plane, x: ApplyInput, prior: State,
                            a: Answers)
    requires AllAnnounced(changes, p.log, earlier)
    requires prior.agentName == "" ==> Change(AgentResource, Create) in changes
    requires VersionNeeded(x, prior) ==>
               && (Change(VersionResource, Create) in changes || Change(VersionResource, Update) in changes)
               && (Change(EndpointResource, Create) in changes || Change(EndpointResource, Update) in changes)
    ensures AllAnnounced(changes, ApplyAgent(lib, p, x, prior, a).plane.log, earlier)
  {
    var s := Stamped(lib, x, prior);
    var ensured := EnsureAgent(p, x, s, a.agent);
    assert AllAnnounced(changes, ensured.plane.log, earlier);
    if ensured.err.None? && VersionNeeded(x, ensured.state) {
      var made := VersionCreated(ensured.plane, x.agentName, Wanted(x), a.version);
      assert AllAnnounced(changes, made.log, earlier);
      if a.version.Replied? && a.version.status == STATUS_ACTIVE {
        var served := EndpointSet(made, x.agentName, a.version.version, x.protocols, a.serve);
        assert AllAnnounced(changes, served.log, earlier);
      }
    }
  }

  lemma PlanEntries(lib: Library, req: Request, prior: State)
    ensures
      var changes := PlanOf(lib, req, prior);
      var y := PlanInput(prior, PackHash(lib, req), ConfigHash(lib, req), DecidePackDelivery(req.pack, req.cfg), []);
      && (Change(AgentResource, Create) in changes <==> prior.agentName == "")
      && (Change(VersionResource, Create) in changes <==> VersionReasons(y) != [] && prior.inFlight.None?)
      && (Change(VersionResource, Update) in changes <==> prior.inFlight.Some?)
      && (Change(EndpointResource, Create) in changes <==> prior.servedVersion == "")
      && (Change(EndpointResource, Update) in changes <==> VersionReasons(y) != [] && prior.servedVersion != "")
      && (Change(PackResource, Create) in changes <==> !y.delivery.inline)
      && (forall c :: c in changes ==> c.action != Delete && c.action != Drifted)
  {
    hide PackHash, ConfigHash, DecidePackDelivery;
    var changes := PlanOf(lib, req, prior);
    var y := PlanInput(prior, PackHash(lib, req), ConfigHash(lib, req), DecidePackDelivery(req.pack, req.cfg), []);
    assert changes[0] == AgentChange(y);
    if VersionReasons(y) != [] {
      assert changes[1] == VersionChange(y) && changes[2] == ServedVersionChange(y);
    }
    if !y.delivery.inline {
      assert changes[|changes| - 1] == Change(PackResource, Create);
    }
  }

  /** Entries for everything an apply from this state could need. */
  ghost predicate CoversNeeds(lib: Library, changes: seq<Change>, req: Request, prior: State) {
    && (prior.agentName == "" ==> Change(AgentResource, Create) in changes)
    && (!DecidePackDelivery(req.pack, req.cfg).inline ==> Change(PackResource, Create) in changes)
    && (prior.inFlight.Some? || prior.servedVersion == "" || prior.packHash != PackHash(lib, req)
        || prior.configHash != ConfigHash(lib, req) ==>
          && (Change(VersionResource, Create) in changes || Change(VersionResource, Update) in changes)
          && (Change(EndpointResource, Create) in changes || Change(EndpointResource, Update) in changes))
  }

  lemma CoveringAnnounces(lib: Library, changes: seq<Change>, p: Plane, req: Request, stored: RawState, a: Answers)
    requires Decode(stored).Success? && CoversNeeds(lib, changes, req, Decode(stored).value)
    ensures AllAnnounced(changes, ApplyRequest(lib, p, req, stored, a).plane.log, p.log)
  {
    hide Decode, DesiredSpec, Encode, ApplyAgent, Stage, Gather, PackHash, ConfigHash, NameOf;
    var prior := Decode(stored).value;
    GatherSplits(lib, req, stored);
    if Accepted(lib, req) && a.connected {
      StageAnnounced(lib, changes, p, req, prior, a.stage);
      if DesiredSpec(lib, req).Success? {
        var x := InputFor(lib, req, DesiredSpec(lib, req).value);
        ApplyAgentAnnounced(lib, changes, p.log, Stage(lib, p, req, prior, a.stage), x, prior, a);
      }
    }
  }

  lemma PlanCoversNeeds(lib: Library, req: Request, prior: State)
    ensures CoversNeeds(lib, PlanOf(lib, req, prior), req, prior)
  {
    hide PlanOf, PackHash, ConfigHash;
    PlanEntries(lib, req, prior);
  }

  /**
   The plan over-approximates the apply: for every request and recorded state,
   whatever the plane answers, each call the apply makes is announced by a
   matching entry.
   */
  lemma PlanCoversApply(lib: Library, p: Plane, req: Request, stored: RawState, a: Answers)
    requires Decode(stored).Success?
    ensures AllAnnounced(PlanOf(lib, req, Decode(stored).value), ApplyRequest(lib, p, req, stored, a).plane.log, p.log)
  {
    hide *;
    PlanCoversNeeds(lib, req, Decode(stored).value);
    CoveringAnnounces(lib, PlanOf(lib, req, Decode(stored).value), p, req, stored, a);
  }

  /**
   "No changes" is shown exactly when the recorded state is settled and the
   pack is inline; a staged pack is always announced, uploaded or not.
   */
  lemma NoChangesExactly(lib: Library, req: Request, prior: State)
    requires Accepted(lib, req)
    ensures (forall c :: c in PlanOf(lib, req, prior) ==> c.action.NoChange?) <==>
            Settled(lib, req, prior) && DecidePackDelivery(req.pack, req.cfg).inline
  {
    hide Accepted;
    PlanEntries(lib, req, prior);
    StagedUriIsNotEmpty(lib, req);
    var y := PlanInput(prior, PackHash(lib, req), ConfigHash(lib, req), DecidePackDelivery(req.pack, req.cfg), []);
    var changes := PlanOf(lib, req, prior);
    if Settled(lib, req, prior) && y.delivery.inline {
      assert changes == [Change(AgentResource, NoChange)];
    }
  }

  /** A plan without changes means an apply without calls, whatever the plane would answer. */
  lemma NoChangesMeansNoCalls(lib: Library, p: Plane, req: Request, stored: RawState, a: Answers)
    requires Accepted(lib, req) && Decode(stored).Success?
    requires forall c :: c in PlanOf(lib, req, Decode(stored).value) ==> c.action.NoChange?
    ensures ApplyRequest(lib, p, req, stored, a).plane == p
  {
    hide Decode, Accepted, PlanOf, ApplyAgent, Encode;
    var prior := Decode(stored).value;
    NoChangesExactly(lib, req, prior);
    GatherSplits(lib, req, stored);
    StagedUriIsNotEmpty(lib, req);
    if a.connected && DesiredSpec(lib, req).Success? {
      SilentExactlyWhenSettled(lib, p, req, stored, a);
    }
  }

  function LogIf(condition: bool, log: CallLog, c: Call): CallLog {
    if condition then Then(log, c) else log
  }

  lemma GoodApplyAgent(lib: Library, p: Plane, x: ApplyInput, prior: State, a: Answers)
    requires AllGood(a) && x.spec.name == x.agentName && (prior.agentName == "" || x.agentName in p.agents)
    ensures
      var o, v := ApplyAgent(lib, p, x, prior, a), a.version.version;
      && o.err.None?
      && o.plane.log ==
           var created := LogIf(prior.agentName == "", p.log, AgentCall(x.agentName, Delivered));
           var made := LogIf(VersionNeeded(x, prior), created, VersionCall(x.agentName, a.version));
           LogIf(VersionNeeded(x, prior), made, EndpointCall(x.agentName, v, Delivered))
  {
  }

  /**
   And it is exact but for one entry: when every call succeeds, the calls made
   are the announced ones in order, except that an announced upload is skipped
   when the recorded name is already the pack's own.
   */
  lemma PlanIsHonoured(lib: Library, p: Plane, req: Request, stored: RawState, a: Answers)
    requires Accepted(lib, req) && DesiredSpec(lib, req).Success? && Decode(stored).Success? && AllGood(a)
    requires Decode(stored).value.agentName == "" || NameOf(lib, req) in p.agents
    ensures
      var prior, name, r := Decode(stored).value, NameOf(lib, req), ApplyRequest(lib, p, req, stored, a);
      var changes := PlanOf(lib, req, prior);
      var announcesVersion := Change(VersionResource, Create) in changes || Change(VersionResource, Update) in changes;
      var announcesPack := Change(PackResource, Create) in changes;
      && r.err.None?
      && r.plane.log ==
           var staged := LogIf(announcesPack && prior.stagedPackUri != PackUriOf(lib, req), p.log,
                               StageCall(PackUriOf(lib, req), Delivered));
           var created := LogIf(Change(AgentResource, Create) in changes, staged, AgentCall(name, Delivered));
           var made := LogIf(announcesVersion, created, VersionCall(name, a.version));
           LogIf(announcesVersion, made, EndpointCall(name, a.version.version, Delivered))
  {
    hide Decode, Accepted, PlanOf, ApplyAgent, Encode, DesiredSpec, NameOf, VersionReasons, PackHash, ConfigHash, Gather;
    var prior := Decode(stored).value;
    var x := InputFor(lib, req, DesiredSpec(lib, req).value);
    PlanEntries(lib, req, prior);
    ReasonsAgree(prior, x, PlanInput(prior, PackHash(lib, req), ConfigHash(lib, req),
                                     DecidePackDelivery(req.pack, req.cfg), []));
    StagedUriIsNotEmpty(lib, req);
    Submitted(lib, p, req, stored, a);
    OriginOf(lib, req, x.spec);
    StageKeepsAgents(lib, p, req, prior, a.stage);
    GoodApplyAgent(lib, Stage(lib, p, req, prior, a.stage), x, prior, a);
  }

  /** What a plan announces, in terms of the calls made so far. */
  ghost predicate PlanAgrees(changes: seq<Change>, o: Observed) {
    && (Change(AgentResource, Create) in changes <==> o.created == 0)
    && (Change(VersionResource, Update) in changes <==> o.pending.Some?)
    && (Change(EndpointResource, Create) in changes <==> o.served == [])
  }

  /**
   After any run of applies the plan tells the run's own story: the agent is to
   be created exactly while no creation was acknowledged, a version is to be
   reconciled exactly while the last version reply was not active and no dry run
   has handed a state back since, and the endpoint is to be created exactly while
   no version was ever served.
   */
  lemma PlanFollowsLog(lib: Library, name: string, sys: System, steps: seq<Step>, req: Request)
    requires Untouched(name, sys) && LegalRun(lib, name, sys, steps) && name != ""
    ensures Decode(Run(lib, sys, steps).stored).Success?
    ensures PlanAgrees(PlanOf(lib, req, FinalState(lib, sys, steps)), Observe(Run(lib, sys, steps).plane.log))
  {
    hide LogKept, VersionsKept, Run, Decode, PlanOf, Observe;
    RunKeeps(lib, name, sys, steps);
    var s, p := FinalState(lib, sys, steps), Run(lib, sys, steps).plane;
    PlanEntries(lib, req, s);
    StateFollows(name, p, s);
  }

  lemma StateFollows(name: string, p: Plane, s: State)
    requires LogKept(name, p, s)
    ensures StateFollowsLog(name, Observe(p.log), s)
  {
  }
}
