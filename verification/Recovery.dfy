/**
 What one more apply repairs after any run, and what no number of applies does:
 an endpoint left ahead of the state, and a version a dry run has hidden.
 */
module Recovery {
  import opened Wrappers
  import opened AdapterState
  import opened AgentSpecs
  import opened Apply
  import opened ControlPlane
  import opened Convergence
  import opened Lifecycle
  import opened Plan
  import opened Requests
  import opened Runs
  import opened Staging

  // ------------------------------------------------- what an apply repairs

  /** An apply whose calls all succeed, over a recorded agent that is there or none. */
  lemma GoodOutcome(lib: Library, p: Plane, x: ApplyInput, prior: State, a: Answers)
    requires AllGood(a) && x.spec.name == x.agentName && (prior.agentName == "" || x.agentName in p.agents)
    requires prior.agentName == "" ==> VersionNeeded(x, prior)
    ensures
      var o, v := ApplyAgent(lib, p, x, prior, a), a.version.version;
      && o.err.None? && o.state.inFlight.None? && x.agentName in o.plane.agents
      && var live := o.plane.agents[x.agentName];
         if VersionNeeded(x, prior) then
           && live.served == v && v in live.versions && live.versions[v] == Wanted(x) && live.protocols == x.protocols
           && o.state.servedVersion == v && o.state.packHash == x.packHash && o.state.configHash == x.configHash
         else o.plane == p && o.state.servedVersion == prior.servedVersion
  {
  }

  /**
   Recovery over whole runs: after every legal run, whatever had failed in it, an
   apply whose calls succeed reports success and leaves nothing in flight. If it
   needed a version, that version is served with its protocols, recorded, and the
   one the request asks for. Afterwards the endpoint serves what is recorded
   exactly when a version was needed or no endpoint call had taken effect
   unacknowledged.
   */
  lemma GoodApplyRecovers(lib: Library, name: string, sys: System, steps: seq<Step>, req: Request, a: Answers)
    requires Untouched(name, sys) && LegalRun(lib, name, sys, steps) && name != ""
    requires Buildable(lib, req) && !req.cfg.dryRun && NameOf(lib, req) == name && AllGood(a)
    ensures Decode(Run(lib, sys, steps).stored).Success?
    ensures
      var before, x := Run(lib, sys, steps), InputFor(lib, req, DesiredSpec(lib, req).value);
      var r := ApplyRequest(lib, Marked(before.plane, false), req, before.stored, a);
      var needed := VersionNeeded(x, FinalState(lib, sys, steps));
      && r.err.None? && Decode(r.out).Success? && name in r.plane.agents
      && var s, live := Decode(r.out).value, r.plane.agents[name];
         && s.inFlight.None?
         && (needed ==>
               && live.served == a.version.version && live.served in live.versions
               && live.versions[live.served] == Wanted(x) && live.protocols == req.cfg.protocols)
         && (!needed ==> r.plane.agents == before.plane.agents)
         && s.packHash == PackHash(lib, req) && s.configHash == ConfigHash(lib, req)
         && (live.served == s.servedVersion <==> needed || !Observe(before.plane.log).unacknowledged)
  {
    hide Decode, DesiredSpec, Stage, Encode, Gather, NameOf, PackHash, ConfigHash, PackUriOf, Run, LegalRun;
    hide ApplyAgent, Observe, Accepted, Valid;
    WholeRunSafety(lib, name, sys, steps);
    var before, x := Run(lib, sys, steps), InputFor(lib, req, DesiredSpec(lib, req).value);
    var p, prior := Marked(before.plane, false), FinalState(lib, sys, steps);
    Submitted(lib, p, req, before.stored, a);
    OriginOf(lib, req, x.spec);
    var staged := Stage(lib, p, req, prior, a.stage);
    StageKeepsAgents(lib, p, req, prior, a.stage);
    GoodOutcome(lib, staged, x, prior, a);
    if !VersionNeeded(x, prior) {
      KeepsHashes(lib, staged, x, prior, a);
    }
    DecodedIsValid(before.stored);
    KeepsValid(lib, staged, x, prior, a);
    StateRoundTrip(ApplyAgent(lib, staged, x, prior, a).state);
  }

  lemma KeepsHashes(lib: Library, p: Plane, x: ApplyInput, prior: State, a: Answers)
    requires !VersionNeeded(x, prior)
    ensures
      var s := ApplyAgent(lib, p, x, prior, a).state;
      s.packHash == x.packHash && s.configHash == x.configHash
  {
  }

  // ------------------------------------------------- what none does

  lemma SettledStep(lib: Library, p: Plane, req: Request, stored: RawState, a: Answers)
    requires Buildable(lib, req) && Decode(stored).Success? && Settled(lib, req, Decode(stored).value)
    ensures
      var r := ApplyRequest(lib, p, req, stored, a);
      && r.plane == p && (a.connected ==> r.err.None?)
      && Decode(HeldAfter(r, stored)).Success? && Settled(lib, req, Decode(HeldAfter(r, stored)).value)
  {
    hide Decode, DesiredSpec, Encode, Gather, NameOf, PackHash, ConfigHash, PackUriOf, Accepted, Valid;
    GatherSplits(lib, req, stored);
    if a.connected {
      var prior, x := Decode(stored).value, InputFor(lib, req, DesiredSpec(lib, req).value);
      Submitted(lib, p, req, stored, a);
      SettledStops(lib, p, x, prior, a);
      DecodedIsValid(stored);
      KeepsValid(lib, p, x, prior, a);
      StateRoundTrip(ApplyAgent(lib, p, x, prior, a).state);
    }
  }

  /** Once settled for a request, no run of applies of it makes a call or moves anything. */
  lemma {:induction false} UpToDateForever(lib: Library, sys: System, req: Request, steps: seq<Step>)
    requires Buildable(lib, req) && !req.cfg.dryRun
    requires Decode(sys.stored).Success? && Settled(lib, req, Decode(sys.stored).value)
    requires forall i :: 0 <= i < |steps| ==> steps[i].req == req
    ensures
      var after := Run(lib, sys, steps);
      && after.plane.agents == sys.plane.agents && after.plane.blobs == sys.plane.blobs
      && Calls(after.plane.log) == Calls(sys.plane.log)
      && Decode(after.stored).Success? && Settled(lib, req, Decode(after.stored).value)
  {
    hide Decode, Settled, ApplyRequest, Buildable;
    if steps != [] {
      var n := |steps| - 1;
      var before := Run(lib, sys, steps[..n]);
      UpToDateForever(lib, sys, req, steps[..n]);
      SettledStep(lib, Marked(before.plane, false), req, before.stored, steps[n].answers);
    }
  }

  /** The two requests of the runs below: one agent, one place for the pack, another configuration. */
  predicate Revised(lib: Library, one: Request, two: Request) {
    && Buildable(lib, one) && !one.cfg.dryRun && Buildable(lib, two) && !two.cfg.dryRun
    && NameOf(lib, two) == NameOf(lib, one) && PackUriOf(lib, two) == PackUriOf(lib, one)
    && ConfigHash(lib, two) != ConfigHash(lib, one)
  }

  /** A version served, the acknowledgement lost. */
  lemma LostServe(lib: Library, p: Plane, x: ApplyInput, prior: State, b: Answers)
    requires prior.agentName != "" && VersionNeeded(x, prior) && x.agentName in p.agents
    requires AllGood(b.(serve := Delivered)) && b.serve.LostReply?
    ensures
      var o, v := ApplyAgent(lib, p, x, prior, b), b.version.version;
      && o.state == Stamped(lib, x, prior).(inFlight := None) && x.agentName in o.plane.agents
      && o.plane.agents[x.agentName].served == v && v in o.plane.agents[x.agentName].versions
      && o.plane.agents[x.agentName].versions[v] == Wanted(x)
  {
  }

  /** A version made, not active yet. */
  lemma SlowVersion(lib: Library, p: Plane, x: ApplyInput, prior: State, b: Answers)
    requires prior.agentName != "" && VersionNeeded(x, prior) && x.agentName in p.agents
    requires b.version.Replied? && b.version.status != STATUS_ACTIVE
    ensures
      var o, v := ApplyAgent(lib, p, x, prior, b), b.version.version;
      && o.state == Stamped(lib, x, prior).(inFlight := Some(InFlightVersion(v, x.packHash, x.configHash)))
      && o.plane.log == Then(p.log, VersionCall(x.agentName, b.version)) && x.agentName in o.plane.agents
      && o.plane.agents[x.agentName].served == p.agents[x.agentName].served
      && v in o.plane.agents[x.agentName].versions
  {
  }

  /** A good deploy of one request, then a second apply from the state it left. */
  lemma SecondStep(lib: Library, p: Plane, one: Request, two: Request, a: Answers, b: Answers)
    requires Revised(lib, one, two) && NameOf(lib, one) !in p.agents && p.log.NoCalls?
    requires AllGood(a) && FreshReply(p, a.version) && b.connected && b.stage.Delivered?
    requires b.version.Replied? && b.version.version !in {"", a.version.version}
    ensures
      var name, sys, steps := NameOf(lib, one), System(p, Absent), [Step(one, a), Step(two, b)];
      var first := Run(lib, sys, [Step(one, a)]);
      && Decode(first.stored).Success?
      && var prior, x := Decode(first.stored).value, InputFor(lib, two, DesiredSpec(lib, two).value);
         var staged := Stage(lib, Marked(first.plane, false), two, prior, b.stage);
         var o := ApplyAgent(lib, staged, x, prior, b);
         && Untouched(name, sys) && name != "" && LegalRun(lib, name, sys, steps)
         && Settled(lib, one, prior) && VersionNeeded(x, prior) && x.agentName == name
         && x.stagedPackUri == PackUriOf(lib, one) && prior.agentName == name
         && staged.agents == first.plane.agents && name in first.plane.agents
         && first.plane.agents[name].served == prior.servedVersion == a.version.version
         && Run(lib, sys, steps) == System(o.plane, Doc(Obj(Encode(o.state))))
         && Decode(Run(lib, sys, steps).stored) == Success(o.state)
  {
    hide Decode, DesiredSpec, Stage, Encode, Gather, NameOf, PackHash, ConfigHash, PackUriOf, Run, LegalRun;
    hide ApplyAgent, Observe, Accepted, Valid;
    var sys, start := System(p, Absent), [Step(one, a)];
    FirstStepLeaves(lib, p, one, a);
    FirstDeployIsARun(lib, p, one, a);
    FirstServes(lib, p, one, a);
    var first := Run(lib, sys, start);
    var q, prior := Marked(first.plane, false), Decode(first.stored).value;
    MarkIsNotObserved(first.plane);
    Submitted(lib, q, two, first.stored, b);
    StageKeepsAgents(lib, q, two, prior, b.stage);
    var x, staged := InputFor(lib, two, DesiredSpec(lib, two).value), Stage(lib, q, two, prior, b.stage);
    DecodedIsValid(first.stored);
    KeepsValid(lib, staged, x, prior, b);
    StateRoundTrip(ApplyAgent(lib, staged, x, prior, b).state);
    Appended(lib, NameOf(lib, one), sys, start, Step(two, b));
    assert start + [Step(two, b)] == [Step(one, a), Step(two, b)];
  }

  lemma FirstServes(lib: Library, p: Plane, req: Request, a: Answers)
    requires Buildable(lib, req) && !req.cfg.dryRun && NameOf(lib, req) !in p.agents && p.log.NoCalls?
    requires AllGood(a) && FreshReply(p, a.version)
    ensures
      var name, sys, steps := NameOf(lib, req), System(p, Absent), [Step(req, a)];
      && Decode(Run(lib, sys, steps).stored).Success? && name in Run(lib, sys, steps).plane.agents
      && Run(lib, sys, steps).plane.agents[name].served == FinalState(lib, sys, steps).servedVersion == a.version.version
  {
    hide Decode, DesiredSpec, Stage, Encode, NameOf, PackHash, ConfigHash, PackUriOf, Run, LegalRun, Observe, Accepted;
    FirstStep(lib, p, req, a);
  }

  /**
   The endpoint ahead of the state, for good. One request is deployed, a revised
   one is served but the acknowledgement is lost, and the first is applied again,
   however often: each time it is up to date, no call is made, and the revised
   version stays live, although the state records the first.
   */
  lemma RevertIsNeverServed(lib: Library, p: Plane, one: Request, two: Request, a: Answers, b: Answers, more: seq<Step>)
    requires Revised(lib, one, two) && NameOf(lib, one) !in p.agents && p.log.NoCalls?
    requires AllGood(a) && FreshReply(p, a.version)
    requires AllGood(b.(serve := Delivered)) && b.serve.LostReply? && b.version.version !in {"", a.version.version}
    requires forall i :: 0 <= i < |more| ==> more[i].req == one
    ensures
      var name, sys, steps := NameOf(lib, one), System(p, Absent), [Step(one, a), Step(two, b)];
      var ahead := Run(lib, sys, steps);
      && Untouched(name, sys) && LegalRun(lib, name, sys, steps)
      && Decode(ahead.stored).Success? && Settled(lib, one, Decode(ahead.stored).value)
      && Decode(ahead.stored).value.servedVersion == a.version.version
      && Calls(Run(lib, ahead, more).plane.log) == Calls(ahead.plane.log)
      && name in Run(lib, ahead, more).plane.agents
      && var live := Run(lib, ahead, more).plane.agents[name];
         && live.served == b.version.version && live.served in live.versions
         && live.versions[live.served] == Wanted(InputFor(lib, two, DesiredSpec(lib, two).value))
         && live.versions[live.served].configHash != ConfigHash(lib, one)
  {
    hide Decode, DesiredSpec, Stage, Encode, NameOf, PackHash, ConfigHash, PackUriOf, Run, LegalRun, Observe;
    hide ApplyAgent, Accepted, FreshReply;
    SecondStep(lib, p, one, two, a, b);
    var sys := System(p, Absent);
    var first := Run(lib, sys, [Step(one, a)]);
    var prior, x := Decode(first.stored).value, InputFor(lib, two, DesiredSpec(lib, two).value);
    var staged := Stage(lib, Marked(first.plane, false), two, prior, b.stage);
    LostServe(lib, staged, x, prior, b);
    UpToDateForever(lib, Run(lib, sys, [Step(one, a), Step(two, b)]), one, more);
  }

  /**
   A version out of sight. One request is deployed, a revised one gets a version
   that is not active yet, and a dry run of the revised one follows: status goes
   from degraded to deployed, the plan no longer has anything to reconcile, and
   the first request is up to date, while the version is still on the agent.
   */
  lemma DryRunHidesInFlight(lib: Library, p: Plane, one: Request, two: Request, a: Answers, b: Answers,
                            ignored: Answers, req: Request)
    requires Revised(lib, one, two) && NameOf(lib, one) !in p.agents && p.log.NoCalls?
    requires AllGood(a) && FreshReply(p, a.version) && b.connected && b.stage.Delivered?
    requires b.version.Replied? && b.version.status != STATUS_ACTIVE && b.version.version !in {"", a.version.version}
    ensures
      var name, sys := NameOf(lib, one), System(p, Absent);
      var dry := Step(two.(cfg := two.cfg.(dryRun := true)), ignored);
      var slow := Run(lib, sys, [Step(one, a), Step(two, b)]);
      var hidden := Run(lib, sys, [Step(one, a), Step(two, b), dry]);
      && Untouched(name, sys) && LegalRun(lib, name, sys, [Step(one, a), Step(two, b), dry])
      && hidden.plane == Marked(slow.plane, true) && name in hidden.plane.agents
      && b.version.version in hidden.plane.agents[name].versions
      && Decode(slow.stored).Success? && Decode(hidden.stored).Success?
      && var was, s := Decode(slow.stored).value, Decode(hidden.stored).value;
         && slow.plane.log.Then? && slow.plane.log.last == VersionCall(name, b.version)
         && StatusOf(slow.plane, was).status.Degraded? && StatusOf(hidden.plane, s).status.Deployed?
         && Change(VersionResource, Update) in PlanOf(lib, req, was)
         && Change(VersionResource, Update) !in PlanOf(lib, req, s)
         && Settled(lib, one, s)
  {
    hide Decode, DesiredSpec, Stage, Encode, NameOf, PackHash, ConfigHash, PackUriOf, Run, LegalRun, Observe;
    hide ApplyAgent, Accepted, PlanOf, Driven;
    SecondStep(lib, p, one, two, a, b);
    var sys, steps := System(p, Absent), [Step(one, a), Step(two, b)];
    var dry := Step(two.(cfg := two.cfg.(dryRun := true)), ignored);
    var first, slow := Run(lib, sys, [Step(one, a)]), Run(lib, sys, steps);
    var prior, x := Decode(first.stored).value, InputFor(lib, two, DesiredSpec(lib, two).value);
    SlowVersion(lib, Stage(lib, Marked(first.plane, false), two, prior, b.stage), x, prior, b);
    DryTwin(lib, two);
    DryStep(lib, slow, dry);
    Appended(lib, NameOf(lib, one), sys, steps, dry);
    assert steps + [dry] == [Step(one, a), Step(two, b), dry];
    PlanEntries(lib, req, Decode(slow.stored).value);
    PlanEntries(lib, req, Decode(Driven(lib, slow, dry).stored).value);
  }
}
