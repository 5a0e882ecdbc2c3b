/**
 The polling loop of the REST client: a created version is awaited until it
 leaves the creating state, and what that means for the state an apply records.

 Time is an integer clock that never runs backwards. The n-th poll waits for
 the delay and then takes `slack(n)` more.
 */
module AwaitVersion {
  import opened Wrappers
  import opened AdapterState
  import opened AgentSpecs
  import opened Apply
  import opened ControlPlane
  import opened Runs

  const DEFAULT_POLL_DELAY := 2      // seconds
  const DEFAULT_POLL_TIMEOUT := 600  // seconds

  /** How the environment ends one round: a status, a failed lookup, or the caller giving up. */
  datatype Poll = Got(status: string) | LookupFailed | GivenUp

  datatype AwaitError = StillCreating | LookupError | ContextDone | VersionFailed

  /** Time spent in the first `polls` rounds. */
  function Clock(delay: nat, slack: nat -> nat, polls: nat): nat {
    if polls == 0 then 0 else Clock(delay, slack, polls - 1) + delay + slack(polls - 1)
  }

  /** The status known after that many answered polls. */
  function StatusAfter(first: string, answers: nat -> Poll, polls: nat): string {
    if polls == 0 then first
    else
      match answers(polls - 1)
      case Got(status) => status
      case _ => ""
  }

  /** The round after this many polls goes on to another one. */
  predicate GoesOn(first: string, answers: nat -> Poll, slack: nat -> nat, delay: nat, timeout: nat, polls: nat) {
    && StatusAfter(first, answers, polls) == STATUS_CREATING && answers(polls).Got?
    && Clock(delay, slack, polls) <= timeout
  }

  /**
   What the loop must return: it keeps polling while the version is creating and
   the deadline has not passed, and stops at the first thing that ends it.
   */
  ghost predicate IsAwaited(first: string, answers: nat -> Poll, slack: nat -> nat, delay: nat, timeout: nat,
                            polls: nat, status: string, err: Option<AwaitError>)
  {
    && (forall i: nat :: i < polls ==> GoesOn(first, answers, slack, delay, timeout, i))
    && status == StatusAfter(first, answers, polls)
    && match err
       case None => status != "creating" && status != "failed"
       case Some(VersionFailed) => status == "failed"
       case Some(StillCreating) => status == "creating" && Clock(delay, slack, polls) > timeout
       case Some(ContextDone) =>
         status == "creating" && Clock(delay, slack, polls) <= timeout && answers(polls).GivenUp?
       case Some(LookupError) =>
         status == "creating" && Clock(delay, slack, polls) <= timeout && answers(polls).LookupFailed?
  }

  /** The lookups made: a failed one is a poll too. */
  function Lookups(polls: nat, err: Option<AwaitError>): nat {
    if err == Some(LookupError) then polls + 1 else polls
  }

  method Await(first: string, answers: nat -> Poll, slack: nat -> nat, delay: nat, timeout: nat)
      returns (status: string, err: Option<AwaitError>, polls: nat)
    requires delay > 0
    ensures IsAwaited(first, answers, slack, delay, timeout, polls, status, err)
    ensures Lookups(polls, err) <= timeout / delay + 1
  {
    var now: nat := 0;
    var deadline := now + timeout;
    status, polls := first, 0;
    while status == STATUS_CREATING
      invariant now == Clock(delay, slack, polls)
      invariant status == StatusAfter(first, answers, polls)
      invariant forall i: nat :: i < polls ==> GoesOn(first, answers, slack, delay, timeout, i)
      invariant polls <= timeout / delay + 1
      decreases deadline + 1 - now
    {
      if now > deadline {
        return status, Some(StillCreating), polls;
      }
      var answer := answers(polls);
      if answer.GivenUp? {
        return status, Some(ContextDone), polls;
      }
      PollsTakeTime(delay, slack, polls, timeout);
      if answer.LookupFailed? {
        return status, Some(LookupError), polls;
      }
      now := now + delay + slack(polls);
      status := answer.status;
      polls := polls + 1;
    }
    err := if status == STATUS_FAILED then Some(VersionFailed) else None;
  }

  /** Every poll waits at least the delay. */
  lemma {:induction false} ClockRuns(delay: nat, slack: nat -> nat, polls: nat)
    ensures polls * delay <= Clock(delay, slack, polls)
  {
    if polls > 0 {
      ClockRuns(delay, slack, polls - 1);
      assert polls * delay == (polls - 1) * delay + delay;
    }
  }

  lemma PollsTakeTime(delay: nat, slack: nat -> nat, polls: nat, timeout: nat)
    requires delay > 0 && Clock(delay, slack, polls) <= timeout
    ensures polls <= timeout / delay
  {
    ClockRuns(delay, slack, polls);
    MultiplesWithin(delay, polls, timeout);
  }

  lemma MultiplesWithin(delay: nat, polls: nat, timeout: nat)
    requires delay > 0 && polls * delay <= timeout
    ensures polls <= timeout / delay
  {
    var q := timeout / delay;
    assert timeout < q * delay + delay;
    var excess := polls - q - 1;
    assert polls * delay == q * delay + delay + excess * delay;
    ProductSign(excess, delay);
  }

  lemma ProductSign(a: int, b: nat)
    ensures a >= 0 ==> a * b >= 0
  {
  }

  lemma StopsHere(first: string, answers: nat -> Poll, slack: nat -> nat, delay: nat, timeout: nat,
                  polls: nat, status: string, err: Option<AwaitError>)
    requires IsAwaited(first, answers, slack, delay, timeout, polls, status, err)
    ensures !GoesOn(first, answers, slack, delay, timeout, polls)
  {
  }

  /** The statuses and the clock leave the loop no choice. */
  lemma AwaitedIsDetermined(first: string, answers: nat -> Poll, slack: nat -> nat, delay: nat, timeout: nat,
                            polls: nat, status: string, err: Option<AwaitError>,
                            polls': nat, status': string, err': Option<AwaitError>)
    requires IsAwaited(first, answers, slack, delay, timeout, polls, status, err)
    requires IsAwaited(first, answers, slack, delay, timeout, polls', status', err')
    ensures polls == polls' && status == status' && err == err'
  {
    StopsHere(first, answers, slack, delay, timeout, polls, status, err);
    StopsHere(first, answers, slack, delay, timeout, polls', status', err');
  }

  /** At the default delay and timeout a version is looked up at most 301 times, whatever comes back. */
  lemma DefaultPollBound(first: string, answers: nat -> Poll, slack: nat -> nat,
                         polls: nat, status: string, err: Option<AwaitError>)
    requires IsAwaited(first, answers, slack, DEFAULT_POLL_DELAY, DEFAULT_POLL_TIMEOUT, polls, status, err)
    ensures DEFAULT_POLL_DELAY == 2 && DEFAULT_POLL_TIMEOUT == 600 && Lookups(polls, err) <= 301
  {
    if err == Some(LookupError) {
      PollsTakeTime(DEFAULT_POLL_DELAY, slack, polls, DEFAULT_POLL_TIMEOUT);
    }
    if polls > 0 {
      var last: nat := polls - 1;
      assert GoesOn(first, answers, slack, DEFAULT_POLL_DELAY, DEFAULT_POLL_TIMEOUT, last);
      PollsTakeTime(DEFAULT_POLL_DELAY, slack, last, DEFAULT_POLL_TIMEOUT);
    }
  }

  // ------------------------------------------------- through an apply

  /** CreateVersion of the REST client, once the create itself was accepted. */
  function RestReply(version: string, status: string, err: Option<AwaitError>): VersionReply {
    if err.None? then Replied(version, status) else VersionLost(version)
  }

  /**
   Through the REST client a version is recorded as in flight only for a status
   that is none of creating, active or failed. One that timed out or failed is
   on the plane, but the apply fails and records nothing about it; on a first
   deploy only the agent is recorded.
   */
  lemma InFlightThroughRest(lib: Library, p: Plane, x: ApplyInput, prior: State, a: Answers,
                            first: string, answers: nat -> Poll, slack: nat -> nat, delay: nat, timeout: nat,
                            polls: nat, version: string, status: string, err: Option<AwaitError>)
    requires IsAwaited(first, answers, slack, delay, timeout, polls, status, err)
    requires a.version == RestReply(version, status, err)
    ensures
      var o, ensured := ApplyAgent(lib, p, x, prior, a), EnsureAgent(p, x, Stamped(lib, x, prior), a.agent);
      && (o.state.inFlight.Some? && o.state.inFlight != prior.inFlight ==>
            err.None? && status !in {STATUS_CREATING, STATUS_ACTIVE, STATUS_FAILED})
      && (err.Some? && ensured.err.None? && VersionNeeded(x, ensured.state) ==>
            && o.err == Some(VersionNotCreated) && o.state == ensured.state
            && o.state.inFlight == prior.inFlight && o.state.servedVersion == prior.servedVersion
            && version in Observe(o.plane.log).issued)
      && (err.None? && ensured.err.None? && VersionNeeded(x, ensured.state) && status != STATUS_ACTIVE ==>
            o.err.None? && o.state.inFlight == Some(InFlightVersion(version, x.packHash, x.configHash)))
      && (err.None? && ensured.err.None? && VersionNeeded(x, ensured.state) && status == STATUS_ACTIVE ==>
            o.state.inFlight.None?)
  {
  }
}
