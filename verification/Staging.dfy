/**
 Skipping the upload of a pack whose name is already recorded: when that agrees
 with uploading it, and how a dry run makes the name outrun the bytes.
 */
module Staging {
  import opened AdapterState
  import opened AgentSpecs
  import opened Apply
  import opened BlobUri
  import opened ControlPlane
  import opened Convergence
  import opened DeployConfig
  import opened Lifecycle
  import opened Requests
  import opened Runs

  /** The blob store has this pack under its own name. */
  predicate Holds(lib: Library, p: Plane, req: Request) {
    PackUriOf(lib, req) in p.blobs && p.blobs[PackUriOf(lib, req)] == req.pack
  }

  /** The name recorded for the last pack, or nothing. */
  function RecordedUri(sys: System): string {
    match Decode(sys.stored)
    case Success(s) => s.stagedPackUri
    case Failure(_) => ""
  }

  /** The last step to record another name than before it, or -1. */
  function LastChange(lib: Library, sys: System, steps: seq<Step>): (k: int)
    ensures -1 <= k < |steps|
  {
    if steps == [] then -1
    else
      var n := |steps| - 1;
      if RecordedUri(Run(lib, sys, steps)) != RecordedUri(Run(lib, sys, steps[..n])) then n
      else LastChange(lib, sys, steps[..n])
  }

  // ------------------------------------------------- one step

  /** What an apply records as the pack's name, and what it did to the blobs to get there. */
  lemma ApplyRecordsName(lib: Library, p: Plane, req: Request, stored: RawState, a: Answers)
    requires Decode(stored).Success?
    ensures
      var r, prior := ApplyRequest(lib, p, req, stored, a), Decode(stored).value;
      && Decode(HeldAfter(r, stored)).Success?
      && (r.plane.blobs == p.blobs || (UploadNeeded(lib, req, prior) &&
            r.plane.blobs == p.blobs[PackUriOf(lib, req) := req.pack]))
      && var held := Decode(HeldAfter(r, stored)).value;
         held.stagedPackUri == prior.stagedPackUri
         || (held.stagedPackUri == PackUriOf(lib, req)
             && (UploadNeeded(lib, req, prior) ==> r.plane.blobs == p.blobs[PackUriOf(lib, req) := req.pack]))
  {
    hide Decode, Gather, DesiredSpec, NameOf, Encode, Valid, ApplyAgent, PackUriOf, UploadNeeded;
    var prior := Decode(stored).value;
    GatherSplits(lib, req, stored);
    if Accepted(lib, req) && a.connected && DesiredSpec(lib, req).Success? {
      DecodedIsValid(stored);
      var x, staged := InputFor(lib, req, DesiredSpec(lib, req).value), Stage(lib, p, req, prior, a.stage);
      KeepsValid(lib, staged, x, prior, a);
      ApplyAgentLeavesBlobs(lib, staged, x, prior, a);
      StateRoundTrip(ApplyAgent(lib, staged, x, prior, a).state);
    }
  }

  lemma ApplyAgentLeavesBlobs(lib: Library, p: Plane, x: ApplyInput, prior: State, a: Answers)
    ensures ApplyAgent(lib, p, x, prior, a).plane.blobs == p.blobs
    ensures ApplyAgent(lib, p, x, prior, a).state.stagedPackUri == x.stagedPackUri
  {
  }

  /** Whoever uploads under this pack's name uploads this pack. */
  lemma SameNameSamePack(lib: Library, a: Request, b: Request)
    requires Sound(lib) && NoCollision(lib, a.pack, b.pack)
    requires PackUriOf(lib, a) != "" && PackUriOf(lib, a) == PackUriOf(lib, b)
    ensures a.pack == b.pack
  {
    HashFromUri(a.cfg.stagingContainer, lib.sha(a.pack), b.cfg.stagingContainer, lib.sha(b.pack));
  }

  lemma StepHolds(lib: Library, sys: System, step: Step, req: Request)
    requires Decode(sys.stored).Success? && Sound(lib) && NoCollision(lib, step.req.pack, req.pack)
    requires PackUriOf(lib, req) != ""
    ensures
      var after, uri := Driven(lib, sys, step), PackUriOf(lib, req);
      && Decode(after.stored).Success?
      && (Holds(lib, sys.plane, req) ==> Holds(lib, after.plane, req))
      && (RecordedUri(sys) == uri || step.req.cfg.dryRun ==>
            (Holds(lib, after.plane, req) <==> Holds(lib, sys.plane, req)))
      && (RecordedUri(sys) != uri && RecordedUri(after) == uri && !step.req.cfg.dryRun ==> Holds(lib, after.plane, req))
  {
    hide Decode, ApplyRequest, PackUriOf, NoCollision;
    if PackUriOf(lib, step.req) == PackUriOf(lib, req) {
      SameNameSamePack(lib, step.req, req);
    }
    if step.req.cfg.dryRun {
      ApplyRecordsName(lib, EMPTY_PLANE, step.req, sys.stored, DRY_ANSWERS);
    } else {
      ApplyRecordsName(lib, Marked(sys.plane, false), step.req, sys.stored, step.answers);
    }
  }

  // ------------------------------------------------- every run

  lemma {:induction false} RunHolds(lib: Library, sys: System, steps: seq<Step>, req: Request)
    requires Decode(sys.stored).Success? && Sound(lib) && PackUriOf(lib, req) != ""
    requires RecordedUri(sys) != PackUriOf(lib, req)
    requires forall i :: 0 <= i < |steps| ==> NoCollision(lib, steps[i].req.pack, req.pack)
    ensures Decode(Run(lib, sys, steps).stored).Success?
    ensures RecordedUri(Run(lib, sys, steps)) == PackUriOf(lib, req) ==>
              var k := LastChange(lib, sys, steps);
              && 0 <= k
              && (Holds(lib, Run(lib, sys, steps).plane, req) <==>
                    !steps[k].req.cfg.dryRun || Holds(lib, Run(lib, sys, steps[..k]).plane, req))
  {
    hide Decode, Driven, Holds, RecordedUri, PackUriOf, NoCollision;
    if steps != [] {
      var n := |steps| - 1;
      var earlier := steps[..n];
      RunHolds(lib, sys, earlier, req);
      StepHolds(lib, Run(lib, sys, earlier), steps[n], req);
      var k := LastChange(lib, sys, steps);
      assert 0 <= k < n ==> earlier[..k] == steps[..k];
    }
  }

  /**
   When skipping the upload agrees with uploading, over every run of real and
   dry applies, for any packs: whenever the recorded name is this pack's own, so
   that the upload is skipped, skipping leaves the blob store as uploading would
   exactly when the step that last changed the recorded name was a real apply,
   or the store already held the pack before that step.
   */
  lemma SkippedUploadIsThere(lib: Library, sys: System, steps: seq<Step>, req: Request)
    requires Decode(sys.stored).Success? && Sound(lib) && PackUriOf(lib, req) != ""
    requires RecordedUri(sys) != PackUriOf(lib, req)
    requires forall i :: 0 <= i < |steps| ==> NoCollision(lib, steps[i].req.pack, req.pack)
    ensures Decode(Run(lib, sys, steps).stored).Success?
    ensures
      var s, p, uri := FinalState(lib, sys, steps), Run(lib, sys, steps).plane, PackUriOf(lib, req);
      !UploadNeeded(lib, req, s) ==>
        var k := LastChange(lib, sys, steps);
        && 0 <= k
        && (p.blobs == ObjectStaged(p, uri, req.pack, Delivered).blobs <==>
              !steps[k].req.cfg.dryRun || Holds(lib, Run(lib, sys, steps[..k]).plane, req))
  {
    hide Decode, Run, PackUriOf, LastChange, NoCollision;
    RunHolds(lib, sys, steps, req);
    SkipAgrees(lib, Run(lib, sys, steps).plane, req);
  }

  lemma SkipAgrees(lib: Library, p: Plane, req: Request)
    ensures p.blobs == ObjectStaged(p, PackUriOf(lib, req), req.pack, Delivered).blobs <==> Holds(lib, p, req)
  {
    hide PackUriOf;
    var uri := PackUriOf(lib, req);
    if Holds(lib, p, req) {
      assert p.blobs[uri := req.pack] == p.blobs;
    } else {
      assert p.blobs[uri := req.pack][uri] == req.pack;
    }
  }

  lemma StepRecords(lib: Library, sys: System, step: Step)
    requires Decode(sys.stored).Success?
    ensures Decode(Driven(lib, sys, step).stored).Success?
    ensures RecordedUri(Driven(lib, sys, step)) in {RecordedUri(sys), PackUriOf(lib, step.req)}
  {
    hide Decode, ApplyRequest, PackUriOf;
    if step.req.cfg.dryRun {
      ApplyRecordsName(lib, EMPTY_PLANE, step.req, sys.stored, DRY_ANSWERS);
    } else {
      ApplyRecordsName(lib, Marked(sys.plane, false), step.req, sys.stored, step.answers);
    }
  }

  /** The recorded name is that of the step that last changed it. */
  lemma {:induction false} LastChangeNames(lib: Library, sys: System, steps: seq<Step>)
    requires Decode(sys.stored).Success?
    ensures Decode(Run(lib, sys, steps).stored).Success?
    ensures
      var k := LastChange(lib, sys, steps);
      RecordedUri(Run(lib, sys, steps)) == if k < 0 then RecordedUri(sys) else PackUriOf(lib, steps[k].req)
  {
    hide Decode, Driven, RecordedUri, PackUriOf;
    if steps != [] {
      var n := |steps| - 1;
      LastChangeNames(lib, sys, steps[..n]);
      StepRecords(lib, Run(lib, sys, steps[..n]), steps[n]);
    }
  }

  /**
   A recorded name and the bytes it hashes, in every reachable state: the name is
   that of the pack of the step that last changed it, and the blob store has that
   pack there exactly when that step was real or the pack was there before it.
   */
  lemma RecordedNameHolds(lib: Library, sys: System, steps: seq<Step>)
    requires sys.stored.Absent? && Sound(lib)
    requires forall i, j :: 0 <= i < |steps| && 0 <= j < |steps| ==>
               NoCollision(lib, steps[i].req.pack, steps[j].req.pack)
    ensures RecordedUri(Run(lib, sys, steps)) != "" ==>
              var k := LastChange(lib, sys, steps);
              && 0 <= k && RecordedUri(Run(lib, sys, steps)) == PackUriOf(lib, steps[k].req)
              && (Holds(lib, Run(lib, sys, steps).plane, steps[k].req) <==>
                    !steps[k].req.cfg.dryRun || Holds(lib, Run(lib, sys, steps[..k]).plane, steps[k].req))
  {
    hide Run, PackUriOf, LastChange, NoCollision, Holds;
    LastChangeNames(lib, sys, steps);
    var k := LastChange(lib, sys, steps);
    if k >= 0 && RecordedUri(Run(lib, sys, steps)) != "" {
      RunHolds(lib, sys, steps, steps[k].req);
    }
  }

  /** Without dry runs every skipped upload is there. */
  lemma RealRunsHold(lib: Library, sys: System, steps: seq<Step>, req: Request)
    requires sys.stored.Absent? && Sound(lib) && PackUriOf(lib, req) != ""
    requires forall i :: 0 <= i < |steps| ==> NoCollision(lib, steps[i].req.pack, req.pack) && !steps[i].req.cfg.dryRun
    ensures Decode(Run(lib, sys, steps).stored).Success?
    ensures !UploadNeeded(lib, req, FinalState(lib, sys, steps)) ==> Holds(lib, Run(lib, sys, steps).plane, req)
  {
    hide Run, PackUriOf, LastChange, NoCollision, Holds;
    RunHolds(lib, sys, steps, req);
  }

  // ------------------------------------------------- how it fails

  lemma DryTwinIsAccepted(lib: Library, req: Request)
    ensures
      var dry := req.(cfg := req.cfg.(dryRun := true));
      && Accepted(lib, dry) == Accepted(lib, req) && PackUriOf(lib, dry) == PackUriOf(lib, req)
      && (Accepted(lib, req) ==>
            InputOf(lib, dry) == InputOf(lib, req).(cfg := dry.cfg) && InputOf(lib, req).cfg == req.cfg)
  {
    hide Decode, Resolved, ConfigHash;
    var dry := req.(cfg := req.cfg.(dryRun := true));
    assert ValidateStructure(dry.cfg) == ValidateStructure(req.cfg);
    assert DecidePackDelivery(dry.pack, dry.cfg) == DecidePackDelivery(req.pack, req.cfg);
  }

  lemma DryTwin(lib: Library, req: Request)
    ensures
      var dry := req.(cfg := req.cfg.(dryRun := true));
      && Buildable(lib, dry) == Buildable(lib, req) && PackUriOf(lib, dry) == PackUriOf(lib, req)
  {
    hide Accepted, InputOf, PackUriOf, AgentEnv, BuildTags;
    DryTwinIsAccepted(lib, req);
  }

  /**
   A dry run of a change to a staged pack, then the same change for real: the
   upload is skipped, every call succeeds and success is reported, and the
   version now served reads its pack from a blob that is not there.
   */
  lemma DryRunHidesTheUpload(lib: Library, sys: System, req: Request, a: Answers, ignored: Answers)
    requires Buildable(lib, req) && !req.cfg.dryRun && PackUriOf(lib, req) != "" && AllGood(a)
    requires Decode(sys.stored).Success? && Decode(sys.stored).value.agentName != ""
    requires Decode(sys.stored).value.packHash != PackHash(lib, req)
    requires NameOf(lib, req) in sys.plane.agents && PackUriOf(lib, req) !in sys.plane.blobs
    ensures
      var dry, name := Step(req.(cfg := req.cfg.(dryRun := true)), ignored), NameOf(lib, req);
      var between := Driven(lib, sys, dry);
      var r := ApplyRequest(lib, Marked(between.plane, false), req, between.stored, a);
      && between.plane == Marked(sys.plane, true)
      && r.err.None? && Run(lib, sys, [dry, Step(req, a)]) == System(r.plane, r.out)
      && name in r.plane.agents && r.plane.agents[name].served == a.version.version
      && var live := r.plane.agents[name];
         && live.served in live.versions
         && var env := live.versions[live.served].spec.env;
            PackUri in env && env[PackUri] == PackUriOf(lib, req) && env[PackUri] !in r.plane.blobs
  {
    hide Decode, DesiredSpec, Encode, Gather, NameOf, PackHash, ConfigHash, PackUriOf, Accepted, ApplyAgent, Stage;
    var dry := Step(req.(cfg := req.cfg.(dryRun := true)), ignored);
    DryTwin(lib, req);
    DryStep(lib, sys, dry);
    var between := Driven(lib, sys, dry);
    var s, p := Decode(between.stored).value, Marked(between.plane, false);
    Submitted(lib, p, req, between.stored, a);
    NoStage(lib, p, req, s, a.stage);
    var x := InputFor(lib, req, DesiredSpec(lib, req).value);
    OriginOf(lib, req, x.spec);
    ServesWhatIsWanted(lib, p, x, s, a);
    ReadsFromItsName(lib, req);
    RunOfTwo(lib, sys, dry, Step(req, a));
  }

  lemma RunOfTwo(lib: Library, sys: System, one: Step, two: Step)
    ensures Run(lib, sys, [one, two]) == Driven(lib, Driven(lib, sys, one), two)
  {
    hide Driven;
    assert [one, two][..1] == [one] && [one][..0] == [];
    assert Run(lib, sys, [one]) == Driven(lib, sys, one);
  }

  lemma ServesWhatIsWanted(lib: Library, p: Plane, x: ApplyInput, prior: State, a: Answers)
    requires AllGood(a) && VersionNeeded(x, prior) && prior.agentName != "" && x.agentName in p.agents
    ensures
      var o := ApplyAgent(lib, p, x, prior, a);
      && o.err.None? && o.plane.blobs == p.blobs && x.agentName in o.plane.agents
      && var live := o.plane.agents[x.agentName];
         live.served == a.version.version && live.served in live.versions && live.versions[live.served] == Wanted(x)
  {
  }

  lemma ReadsFromItsName(lib: Library, req: Request)
    requires Buildable(lib, req) && PackUriOf(lib, req) != ""
    ensures
      var env := DesiredSpec(lib, req).value.env;
      PackUri in env && env[PackUri] == PackUriOf(lib, req)
  {
    hide AgentEnv;
    StagedUriIsNotEmpty(lib, req);
    EnvIsPointwise(lib, InputOf(lib, req), req.env, PackUri);
  }

  lemma FirstApplyLeaves(lib: Library, p: Plane, x: ApplyInput, a: Answers)
    requires AllGood(a) && x.agentName !in p.agents && x.spec.name == x.agentName != ""
    ensures
      var o := ApplyAgent(lib, p, x, FRESH_STATE, a);
      && o.state.packHash == x.packHash && o.state.agentName == x.agentName && x.agentName in o.plane.agents
      && Observe(o.plane.log).issued == Observe(p.log).issued + {a.version.version} && o.plane.blobs == p.blobs
  {
    var created := AgentCreated(p, x.spec, a.agent);
    var made := VersionCreated(created, x.agentName, Wanted(x), a.version);
    assert Observe(created.log).issued == Observe(p.log).issued;
    assert Observe(made.log).issued == Observe(p.log).issued + {a.version.version};
  }

  lemma StageLeaves(lib: Library, p: Plane, req: Request, prior: State, fate: Fate)
    ensures
      var q := Stage(lib, p, req, prior, fate);
      && Observe(q.log).issued == Observe(p.log).issued
      && (q.blobs == p.blobs || q.blobs == p.blobs[PackUriOf(lib, req) := req.pack])
  {
    hide PackUriOf;
  }

  lemma FirstStepLeaves(lib: Library, p: Plane, req: Request, a: Answers)
    requires Buildable(lib, req) && !req.cfg.dryRun && NameOf(lib, req) !in p.agents && p.log.NoCalls?
    requires AllGood(a) && FreshReply(p, a.version)
    ensures
      var name, sys, steps := NameOf(lib, req), System(p, Absent), [Step(req, a)];
      var q := Run(lib, sys, steps).plane;
      && Untouched(name, sys) && name != "" && LegalRun(lib, name, sys, steps)
      && RecordsAgent(Run(lib, sys, steps).stored)
      && FinalState(lib, sys, steps).packHash == PackHash(lib, req)
      && name in q.agents && Observe(q.log).issued == {a.version.version}
      && (q.blobs == p.blobs || q.blobs == p.blobs[PackUriOf(lib, req) := req.pack])
  {
    hide Decode, DesiredSpec, Encode, NameOf, PackHash, ConfigHash, PackUriOf, Run, LegalRun, Accepted;
    hide Stage, ApplyAgent;
    FirstStep(lib, p, req, a);
    StageLeaves(lib, Marked(p, false), req, FRESH_STATE, a.stage);
    FirstApplyLeaves(lib, Stage(lib, Marked(p, false), req, FRESH_STATE, a.stage),
                     InputFor(lib, req, DesiredSpec(lib, req).value), a);
  }

  /**
   Such a run is a legal one: a first deploy, a dry run of a change, the change.
   Every theorem about runs holds of it, and yet its last apply skips the upload
   of a pack the store does not have.
   */
  lemma LegalRunWithoutTheBlob(lib: Library, p: Plane, first: Request, req: Request, a: Answers, b: Answers)
    requires Buildable(lib, first) && !first.cfg.dryRun && NameOf(lib, first) !in p.agents && p.log.NoCalls?
    requires Buildable(lib, req) && !req.cfg.dryRun && NameOf(lib, req) == NameOf(lib, first)
    requires PackHash(lib, req) != PackHash(lib, first) && PackUriOf(lib, req) != PackUriOf(lib, first)
    requires PackUriOf(lib, req) != "" && PackUriOf(lib, req) !in p.blobs
    requires AllGood(a) && AllGood(b) && FreshReply(p, a.version)
    requires b.version.version !in {"", a.version.version}
    ensures
      var name, sys := NameOf(lib, req), System(p, Absent);
      var steps := [Step(first, a), Step(req.(cfg := req.cfg.(dryRun := true)), b), Step(req, b)];
      && Untouched(name, sys) && LegalRun(lib, name, sys, steps)
      && var q := Run(lib, sys, steps).plane;
         && name in q.agents && q.agents[name].served in q.agents[name].versions
         && var env := q.agents[name].versions[q.agents[name].served].spec.env;
            PackUri in env && env[PackUri] == PackUriOf(lib, req) && PackUriOf(lib, req) !in q.blobs
  {
    hide Decode, DesiredSpec, Encode, NameOf, PackHash, ConfigHash, PackUriOf, Accepted, Driven, Observe, Run, LegalRun;
    var sys, one := System(p, Absent), [Step(first, a)];
    var dry, deploy := Step(req.(cfg := req.cfg.(dryRun := true)), b), Step(req, b);
    FirstStepLeaves(lib, p, first, a);
    var after := Run(lib, sys, one);
    DryRunHidesTheUpload(lib, after, req, b, b);
    Appended(lib, NameOf(lib, req), sys, one, dry);
    MarkIsNotObserved(after.plane);
    DryMarkIsNotObserved(after.plane);
    RunOfTwo(lib, after, dry, deploy);
    Appended(lib, NameOf(lib, req), sys, one + [dry], deploy);
    assert one + [dry] + [deploy] == [Step(first, a), dry, deploy];
  }

  lemma DryMarkIsNotObserved(p: Plane)
    ensures Observe(Marked(p, true).log).issued == Observe(p.log).issued
  {
  }

  lemma Appended(lib: Library, name: string, sys: System, steps: seq<Step>, step: Step)
    ensures Run(lib, sys, steps + [step]) == Driven(lib, Run(lib, sys, steps), step)
    ensures LegalRun(lib, name, sys, steps) && LegalStep(lib, name, Run(lib, sys, steps), step) ==>
              LegalRun(lib, name, sys, steps + [step])
  {
    hide Driven, LegalStep;
    assert (steps + [step])[..|steps|] == steps;
  }
}
