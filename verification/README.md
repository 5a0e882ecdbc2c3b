# A verified model of the Foundry deploy adapter and its runtime

The repository is two programs that meet through a container environment. The
adapter drives Azure AI Foundry: one pack is one agent with immutable versions
and an endpoint that selects one of them, and a recorded state decides on every
apply what has to be created. The runtime is the container: it reads the
environment the adapter wrote and streams turns over server-sent events and a
WebSocket. This project models both in Dafny and proves what their comments and
documentation promise, or states exactly when the code keeps the promise.

`dafny verify dfyconfig.toml` checks everything.

## How it is organised

- `AdapterState`, `AgentName`, `BlobUri`, `DeployConfig`, `AgentSpecs`,
  `Requests`: what a request and a recorded state mean, before any call is made.
- `ControlPlane`, `Apply`: the plane, and one apply against it. Code that
  updates fields is written as methods over a record and a client object and
  proved equal to functions on values; the theorems are about the functions.
- `Runs`, `Staging`, `Convergence`, `Recovery`, `Lifecycle`, `Plan`,
  `Verification`: whole runs, skipped uploads, repeated applies, what one more
  apply repairs, destroy and status, the plan and its check against the live
  plane. `Runs.Observe` reads a log of the calls that were made, without looking
  at any state, and serves as the independent reference for what is recorded.
- `DryRun`, `AwaitVersion`: the in-memory plane and the polling REST client.
- `HandOff`: the environment read back by the container.
- `SseWriter`, `StreamTurn`, `SseFraming`: the response writer, its interleaving
  with the producing goroutine, and the bytes as a conforming reader sees them.
- `VoiceRelay`: two goroutines writing to one WebSocket.

## What is assumed

- Library functions are parameters: SHA-256, JSON encoding of the fingerprint
  and of bindings, decoding of a pack, lowercasing. Digests have a fixed length;
  the fingerprint's encoding is injective. That a digest is free of collisions
  is assumed only between the texts a theorem compares. A `string` stands for
  the bytes of a Go string, except in `AgentName`, which reads its runes.
- Every call to the plane is delivered, refused, or done with its reply lost, and
  a created version may come back with any status. Creating an agent that exists
  changes nothing and an acknowledged creation returns the name it was asked for.
  A run uses one pack id, starts where the agent does not exist and nothing is
  recorded, and the plane issues fresh version ids; nothing else changes the
  plane during a run. Dry runs may occur in it, except a first deploy, whose state
  breaks what the theorems say (`DryStepKeepsExactly`, `DryRunStateIsADeadEnd`).
  The theorems about staged packs need none of this.
- The plane's record of a version carries the hashes of the request it was created
  for, and its log the boundaries between applies; neither is sent.
- The caller stores a returned state only if there is one. A dry run talks to a
  plane of its own.
- A JSON document is a finite map with exactly matched keys.
- A WebSocket on which a write has failed accepts no more. Chunk streams are
  finite. A request's context is cancelled at some point after
  its handler returned.

## Where the code and its comments disagree

The code is modelled as it is; each of these has a theorem that says when.

- A version in flight is never looked up again; each further apply creates one
  more (internal/foundry/state.go:18-20; `StalledVersionsPileUp`).
- A version that times out is not recorded as in flight
  (internal/foundry/client_real.go:296-300; `InFlightThroughRest`).
- The fingerprint leaves out azure_endpoint and the state store, which both reach
  the container (`FingerprintNoninterference`, `UnhashedEditIsNeverDeployed`).
- A plan verifies the recorded state, an apply does not
  (`DriftIsPlannedNotApplied`, `StrandedForever`, `DestroyedButRemembered`).
- A dry run over recorded state fails at the endpoint, and the state of a dry
  first deploy makes later deploys impossible (`DryRunOutcomes`,
  `DryRunStateIsADeadEnd`).
- A dry run records the name of a pack it has not uploaded, so the next apply skips
  the upload and serves a version whose pack is not there
  (internal/foundry/staging.go:23-25; `DryRunHidesTheUpload`; exactly when:
  `RecordedNameHolds`). It also forgets a version in flight, which then
  vanishes from status and plan (`DryStep`, `DryRunHidesInFlight`).
- Destroy can report success while the agent is still there: a creation whose reply
  was lost is not recorded (internal/foundry/apply.go:42-47 and 294-298;
  `OrphanOutlivesDestroy`; exactly when: `DestroyConverges`).
- "Already up to date" is said of the recorded version, not of the live one. When an
  endpoint call takes effect but its reply is lost, reverting the request makes no
  call and the version to be reverted stays live, however often it is applied
  (internal/foundry/apply.go:120-123 and 149-157; `RevertIsNeverServed`; exactly
  when: `UpToDateServes`, `GoodApplyRecovers`).
- Unknown fields survive, but not inside in_flight (`NestedInFlightFields`).
- The runtime refuses the staged packs the adapter delivers
  (`EnvironmentHandOff`).
- A staging container URL that names no container passes validation and cannot be
  uploaded to (`StagedUriParses`).
- A lost error event can be followed by a terminator (`ErrorEventCanBeLost`).
- The response pump may write before ready is sent (`ReadyCanComeAnywhere`).

## Model

| member | source | states |
|---|---|---|
| AdapterState.ParseState | internal/foundry/state.go:73-102 | parsing the caller's text has the declarative meaning `Decode`: absent text is a fresh state, a newer schema version or a field of the wrong shape is an error, and the unknown fields collected by the loop are exactly the keys the record does not own |
| AdapterState.DecodesExactly | internal/foundry/state.go:73-102 | every recorded text: none is a fresh state at version 1; text that is not JSON, or a document neither object nor null, is an error of its kind; an object is refused exactly when an owned field is of another type, or else its version is above 1 |
| AdapterState.DecodedFields | internal/foundry/state.go:37-50 | each field of a parsed state, the history element by element and the nested one included, comes from its own key, null and absent being empty |
| AdapterState.EncodedKeys | internal/foundry/state.go:37-46 | which keys are written: the version always, every other owned one exactly when it is not empty |
| AdapterState.DecodedIsValid | internal/foundry/state.go:88-101 | a state that was parsed is of a supported version and keeps owned and preserved keys apart, whatever the document |
| AdapterState.StateRoundTrip | internal/foundry/state.go:73-145 | for every such state, parsing what Marshal writes gives the very same state back |
| AdapterState.OwnedFieldsWin | internal/foundry/state.go:59-69 | preserved unknown fields can neither overwrite an owned field nor bring one back that was omitted as empty |
| AdapterState.DocumentSurvives | internal/foundry/state.go:35-36 | reading and rewriting any accepted document keeps every unrecognized key verbatim, adds none, keeps every non-empty owned string, and a second reading sees the same state |
| AdapterState.OtherFieldsSurvive | internal/foundry/state.go:37-46 | the version number survives the rewrite, and so does a non-empty history, element by element |
| AdapterState.NestedInFlightFields | internal/foundry/state.go:21-27 | the exact exception to "unknown fields survive": a key nested in in_flight is rewritten if and only if it is one of the three owned ones and not empty (the version always is) |
| AdapterState.StateRecord.RecordVersion | internal/foundry/state.go:109-120 | the in-place promotion computes `Recorded` of the old record and touches only the served version and the history |
| AdapterState.StateRecord.Marshal | internal/foundry/state.go:123-145 | merging the preserved fields one by one writes exactly `Encode` of the record |
| AdapterState.RecordingExtendsHistory | internal/foundry/state.go:109-120 | promoting a new version prepends it to the served-version history and cuts that history at twenty-one entries |
| AdapterState.RecordingIsLocal | internal/foundry/state.go:109-120 | promoting the version already served changes nothing, and no promotion touches another field |
| AgentName.FoldAgentNameChars | internal/foundry/tags.go:65-85 | the character loop with its lastHyphen flag computes a specification that never mentions the flag: split at separators, drop what is illegal, drop empty words, join by single hyphens, one trailing hyphen after an open separator |
| AgentName.SanitizeAgentName | internal/foundry/tags.go:42-60 | trimming, the digit prefix and the capped re-trim yield the joined words; the last fallback is a dead branch |
| AgentName.SanitizedIsLegal | internal/foundry/tags.go:9-16 | for every input the name has 1 to 63 characters over lowercase alphanumerics and single interior hyphens, starts with a letter and ends alphanumeric |
| AgentName.SanitizedMeans | internal/foundry/tags.go:42-60 | the name in terms of the joined words: "agent" for none, an "a" before a digit, and of more than 63 characters the first 63 without a hyphen at the end |
| AgentName.CharacterByCharacter | internal/foundry/tags.go:65-85 | every character, one by one: hyphen, underscore, dot and space separate words, letters and digits join them, anything else is dropped |
| AgentName.LettersAreLowered | internal/foundry/tags.go:65-85 | characters are judged after lowering |
| AgentName.FixedExactlyWhenLegal | internal/foundry/tags.go:42-60 | the sanitizer leaves a name alone if and only if it is legal |
| AgentName.SanitizingTwice | internal/foundry/tags.go:42-60 | sanitizing is idempotent |
| BlobUri.HashFromUri | internal/foundry/staging.go:16-18 | two staged names of hashes of one length are equal only if the hashes, and the containers up to a trailing slash, are: two packs cannot share a name, whatever container each was staged in |
| BlobUri.TrailingSlashIsOptional | internal/foundry/staging.go:16-18 | a container with and without a slash at its end gives the same name, with one slash before hash and suffix |
| BlobUri.StagedUriParses | internal/foundry/staging_blob.go:28-46 | for plain https container text the staged name parses exactly when the text names a container below its host, and then service, container and blob rejoined by slashes rebuild the URI, with the content-addressed name as the last segment |
| DeployConfig.ResolveBindings | internal/foundry/resolve.go:17-54 | the loop returns the bindings that resolve, in order, and reports no missing provider if and only if all of them resolve |
| DeployConfig.ResolvedInPlace | internal/foundry/resolve.go:17-54 | when all resolve, each binding is at its own place in the result and no role is left empty |
| DeployConfig.PrimaryBinding | internal/foundry/resolve.go:59-77 | one is found if and only if some binding has the llm role, and it is the first of them named "default", or the first of them when none is |
| DeployConfig.PrimaryIsUnique | internal/foundry/resolve.go:59-77 | that description picks at most one index |
| AgentSpecs.AddStateStoreEnv | internal/foundry/versions.go:142-164 | the store variables are added to the given ones, none for the default store; it fails exactly when an active store names an unset variable |
| AgentSpecs.BuildAgentEnv | internal/foundry/versions.go:86-127 | the writes one after another produce `AgentEnv`, or the first error in the order of the code |
| AgentSpecs.EnvIsPointwise | internal/foundry/versions.go:86-127 | every variable is in the environment exactly when the config wants it, with the wanted value, and no other variable is: no write clobbers another |
| AgentSpecs.BuildTags | internal/foundry/versions.go:166-177 | the two managed tags always carry the managed values, and every other user tag is kept |
| AgentSpecs.EqualEnvs | internal/foundry/versions.go:86-127 | equal environments come from equal endpoints, the same kind of delivery and the same staged URI |
| AgentSpecs.EqualStores | internal/foundry/versions.go:142-164 | equal environments select the same store with the same looked-up URL |
| Requests.GatherSplits | internal/foundry/provider.go:132-193 | the checks on a request and on the recorded state are independent: both must pass, and the state only supplies the prior |
| Requests.RefusedExactly | internal/foundry/provider.go:132-193 | every request and recorded text: which are refused and with which error, the checks being spelled out on the request's own fields and made in this order; nothing else is refused |
| Requests.BuiltExactly | internal/foundry/versions.go:142-164 | an accepted request can be built exactly when the variable its store names, if any, is set |
| Requests.StagedUnder | internal/foundry/staging.go:41 | a pack that fits has no staged name, any other has container, digest and suffix |
| Requests.DeployedAsConfigured | internal/foundry/versions.go:67-177 | end to end from an accepted request: a legal name from the pack id, each configured resource in its place, exactly the wanted environment, and tags that keep the user's and attribute the version to its pack |
| Requests.NamesAreNotEmpty | internal/foundry/tags.go:42-60 | the name of every accepted request is legal, so the recorded name can serve as the "agent exists" mark |
| Requests.HashesDetermine | internal/foundry/hash.go:33-72 | with no collision between them, two requests have equal hashes if and only if they have the same pack, tool specs, resolved bindings, account, project, image, cpu, memory, protocols, idle timeout, tags and observability |
| Requests.FingerprintNoninterference | internal/foundry/versions.go:67-177 | two accepted requests with equal hashes build identical specs if and only if they agree on the three inputs no hash covers: effective endpoint, store with its looked-up URL, and where the pack is read from |
| Requests.UnhashedEditIsInvisible | internal/foundry/hash.go:26-45 | for every accepted request, setting azure_endpoint and state_store to anything valid, or back to nothing, leaves hashes, name and staged URI as they were; the spec stays the same if and only if neither the effective endpoint nor the store the container sees has changed |
| Requests.EndpointEditIsInvisible | internal/foundry/hash.go:26-45 | the same for azure_endpoint alone, its removal included, whenever the effective endpoint changes |
| Requests.StoreEditIsInvisible | internal/foundry/hash.go:26-45 | the same for state_store alone, whenever what the container sees of it changes |
| ControlPlane.Client.SetEndpoint | internal/foundry/client.go:87-95 | a refused call, or one for an absent agent, changes no agent; any other moves selector and protocols of this agent together and leaves its versions and every other agent alone; the log has the fate the call really had |
| ControlPlane.Client.CreateVersion | internal/foundry/client.go:78-80 | unless not created at all, and even when the reply was lost, the version is there as it was asked for, with selector, protocols, other versions and other agents as before |
| Apply.StagePack | internal/foundry/staging.go:26-50 | uploads exactly when the pack is not inline and the recorded name is not its own, and returns the pack's own name whenever it succeeds |
| Apply.EnsureAgentStep | internal/foundry/apply.go:170-191 | the agent is created only when none is recorded and its name recorded only when the creation is acknowledged |
| Apply.MakeVersionSteps | internal/foundry/apply.go:125-165 | creating a version and, once active, serving and recording it, equals `MakeVersion` on plane and state at each of its four ends |
| Apply.ApplyAgentSteps | internal/foundry/apply.go:107-166 | the step-by-step update of a copied record around the client calls equals `ApplyAgent` on plane and state, at every point where it can stop |
| Apply.ApplyOperation | internal/foundry/apply.go:48-103 | gathering, connecting, staging, building the spec and the sequence compose to `ApplyRequest`; failures before the sequence return no state |
| Runs.WholeRunSafety | internal/foundry/apply.go:107-191 | over every run for one pack id, real applies with calls failing or losing their reply anywhere and any status returned, dry runs over a recorded agent among them: at most one agent creation is acknowledged and the state then names it and every call addresses it; the endpoint is only pointed at a version that the same apply, in the call before, saw active; the recorded served version is the last acknowledged one, and is the selector exactly when no later endpoint call took effect unacknowledged |
| Runs.ServedHashes | internal/foundry/apply.go:125-157 | in every reachable state the recorded hashes are exactly those the served version was created under, and likewise for a version in flight; every version on the plane was built for a real step's request under its hashes; in-flight is recorded exactly while the last version reply was not active and no dry run has handed a state back since |
| Runs.LiveProtocols | internal/foundry/client.go:87-95 | in every reachable state the endpoint exposes the protocols of the very version it points at, acknowledged or not |
| Runs.RollbackHistory | internal/foundry/state.go:104-120 | served version followed by prior versions is the newest-first log of all versions ever served cut to twenty-one entries, without repetition |
| Runs.RunKeeps | internal/foundry/apply.go:48-103 | the invariant behind these: state, log and versions agree after every run, through writing and parsing the state between operations |
| Runs.ApplyKeeps | internal/foundry/apply.go:48-103 | one real apply keeps that invariant whatever fails, including the early failures after which the caller keeps its old state |
| Runs.DryStep | internal/foundry/provider.go:65-73 | what a dry run hands back: over a recorded agent everything is kept except that the version in flight is forgotten and the pack's own name is recorded; over nothing it names an agent; the plane is untouched |
| Runs.DryStepKeepsExactly | internal/foundry/provider.go:65-73 | a dry run keeps the invariant if and only if it is not a buildable one with no agent recorded |
| Runs.ServeKeepsHistory | internal/foundry/state.go:109-120 | acknowledging a served version prepends it to the remembered history exactly as it is prepended to the log |
| Staging.RecordedNameHolds | internal/foundry/staging.go:16-50 | in every reachable state, for any packs and dry runs anywhere, a recorded staged name is that of the pack of the step that last changed it, and the blob store has that pack there if and only if that step was real or the pack was there before it |
| Staging.SkippedUploadIsThere | internal/foundry/staging.go:20-25 | whenever the recorded name makes the upload of a pack be skipped, skipping leaves the blob store as uploading would, under exactly that condition |
| Staging.RealRunsHold | internal/foundry/staging.go:20-25 | without dry runs every skipped upload is there |
| Staging.LastChangeNames | internal/foundry/apply.go:111-114 | the recorded staged name is always that of the step that last changed it, through every failure and every rewrite of the state |
| Staging.DryRunHidesTheUpload | internal/foundry/client_dryrun.go:113-118 | a dry run of a change to a staged pack, then the change: every call succeeds, the upload is skipped, and the version now served reads its pack from a blob that is not there |
| Staging.LegalRunWithoutTheBlob | internal/foundry/staging.go:41-44 | a concrete legal run from an untouched project that ends so |
| Convergence.SilentExactlyWhenSettled | internal/foundry/apply.go:107-123 | a connected apply of a buildable request makes no call if and only if the recorded state is settled for it, and then changes nothing and succeeds |
| Convergence.SequenceReports | internal/foundry/apply.go:107-191 | for every state, plane and answer, which error the sequence reports, the first call to fail, and none otherwise, a created version that is not active yet being a success recorded as in flight; and what it records in each case |
| Convergence.ApplyReports | internal/foundry/apply.go:48-103 | the same for the whole operation, in the order it can fail; there is no state to record exactly when the sequence was not reached |
| Convergence.SettledForBoth | internal/foundry/hash.go:47-51 | a state settled for one request is settled for another if and only if the two agree on everything a hash covers and nothing is to upload: any change to one of these unsettles it |
| Convergence.Converges | internal/foundry/apply.go:107-166 | an apply that succeeds with nothing in flight, repeated on the state it wrote, makes no call, uploads included, and returns an equal state |
| Convergence.UpToDateRecords | internal/foundry/apply.go:120-123 | over whole runs, an apply that is "Already up to date" has recorded a version created under its own hashes, for the request of an earlier step, and its spec is the one this request would build if and only if the two agree on the unhashed inputs; it is the live one if and only if no later endpoint call took effect unacknowledged |
| Convergence.UpToDateServes | internal/foundry/apply.go:120-123 | what such an apply leaves live: the version of a real step, under this request's hashes if and only if that step's request has them, as is certain unless an endpoint call took effect unacknowledged; given equal hashes, the spec is the one this request would build if and only if the two agree on the unhashed inputs |
| Convergence.UnhashedEditIsNeverDeployed | internal/foundry/hash.go:26-31 | after any successful first deploy, such an edit of endpoint or store, applied, reports success, makes no call and leaves a version serving that is not the one asked for |
| Convergence.EndpointEditIsNeverDeployed | internal/foundry/hash.go:26-31 | the same for azure_endpoint alone, its removal included |
| Convergence.StrandedForever | internal/foundry/apply.go:174-176 | once the recorded agent is gone, or another name is addressed, no run of applies, dry or not, ever creates an agent or serves a version |
| Convergence.StalledVersionsPileUp | internal/foundry/apply.go:130-141 | while versions do not come back active every apply creates one more: after n such applies n more ids are handed out and the agent holds n more versions, and selector and served version have not moved |
| Recovery.GoodApplyRecovers | internal/foundry/apply.go:107-166 | after every legal run an apply whose calls succeed reports success with nothing in flight; if it needed a version, exactly the one asked for is then served with its protocols and recorded; the endpoint then serves what is recorded if and only if a version was needed or no endpoint call had taken effect unacknowledged |
| Recovery.UpToDateForever | internal/foundry/apply.go:120-123 | once settled for a request, no run of applies of it makes a call or moves agents or blobs |
| Recovery.RevertIsNeverServed | internal/foundry/apply.go:149-157 | deploy one request, serve a revised one but lose the acknowledgement, apply the first again any number of times: always up to date, never a call, and the revised version stays live while the state records the first |
| Recovery.DryRunHidesInFlight | internal/foundry/provider.go:65-73 | a dry run after an apply whose version is not active yet turns status from degraded to deployed, takes the reconcile entry out of every plan and makes the previous request up to date, with the version still on the agent |
| Lifecycle.DestroyOperation | internal/foundry/apply.go:282-316 | the operation equals `Destroy`: nothing recorded means no call, and a failed connection or deletion is reported |
| Lifecycle.DestroyReports | internal/foundry/apply.go:285-308 | every recorded text: unreadable state and a missing connection are errors that touch nothing, nothing recorded is a success without a call, and otherwise the one deletion decides |
| Lifecycle.DestroyConverges | internal/foundry/apply.go:282-316 | after any run, destroy reports success exactly when nothing is recorded or the deletion is acknowledged, leaves every other agent and blob alone, and can be repeated; after a success the agent is still there exactly when a creation took effect that was never acknowledged |
| Lifecycle.OrphanOutlivesDestroy | internal/foundry/apply.go:294-298 | such a run: the creation loses its reply, nothing is recorded, destroy succeeds and the agent remains |
| Lifecycle.UnacknowledgedIsReached | internal/foundry/apply.go:149-153 | a legal run in which the endpoint serves a version the state does not record |
| Lifecycle.DestroyedButRemembered | internal/foundry/apply.go:282-316 | a caller that keeps the recorded state after a destroy can never deploy this pack again |
| Lifecycle.DestroyedIsMissing | internal/foundry/apply.go:355-370 | such a caller is told the agent is missing and not deployed, however often it applies |
| Lifecycle.ForgottenStartsOver | internal/foundry/apply.go:107-191 | with the agent gone and the state forgotten, a good apply leaves an agent with exactly one version, the one asked for, served, and a one-entry history |
| Lifecycle.FirstDeployIsARun | internal/foundry/apply.go:48-103 | every first deploy with good answers is a legal run from an untouched project that leaves a settled, destroyable state: the hypotheses of the theorems about runs can be met |
| Lifecycle.StatusReports | internal/foundry/apply.go:334-419 | the report for every plane and state: not deployed with nothing recorded, not deployed and missing when the agent is gone, degraded when it serves nothing or a version is in flight, deployed otherwise, with the health of agent and endpoint |
| Lifecycle.StatusFollowsLog | internal/foundry/apply.go:334-388 | after any run status never reports a missing agent, reports not deployed exactly before the first acknowledged creation, and deployed exactly when a version is selected and either the last version reply was for an active one or a dry run has handed a state back since |
| Plan.SummarizeChanges | internal/foundry/plan.go:213-253 | the counting loop says "No changes" if and only if every entry is a no-change, and otherwise reports the count of each action, which add up to the number of entries |
| Plan.ReasonsAgree | internal/foundry/plan.go:127-148 | the plan finds a reason for a version exactly when the apply needs one |
| Plan.ReasonsSay | internal/foundry/plan.go:127-148 | the reasons given are the true ones: the pending version alone, the first version alone, or each hash that moved |
| Plan.PlanOrder | internal/foundry/plan.go:59-76 | the order of the entries, drift first, then agent, version before endpoint, pack last, and that there are no others |
| Plan.PlanEntries | internal/foundry/plan.go:59-175 | which entries a plan has, each in both directions: create or update of version and endpoint, agent and pack creation; deletions and drift never |
| Plan.PlanCoversApply | internal/foundry/plan.go:59-148 | for every request, recorded state and behaviour of the plane, each call the apply makes is announced by a matching entry |
| Plan.NoChangesExactly | internal/foundry/plan.go:213-253 | a plan without changes means exactly a settled state and an inline pack; a staged pack is announced even when it will not be uploaded |
| Plan.NoChangesMeansNoCalls | internal/foundry/plan.go:244-248 | after "No changes" the apply makes no call whatever the plane would answer |
| Plan.PlanIsHonoured | internal/foundry/apply.go:107-166 | when every call succeeds the calls made are the announced ones, in order, but for an announced upload already in place |
| Plan.PlanFollowsLog | internal/foundry/plan.go:87-175 | after any run the plan creates the agent exactly while no creation was acknowledged, reconciles exactly while the last version reply was not active and no dry run has handed a state back since, and creates the endpoint exactly while nothing was ever served |
| Verification.AgentProbe.Exists | internal/foundry/provider.go:240-253 | only a genuine agent miss reads as "does not exist"; what was found or failed is kept for the caller |
| Verification.VerifiedPriorState | internal/foundry/provider.go:262-312 | the probe, the shared reconciler and the checks after it compose to `VerifiedPrior` |
| Verification.PlanSteps | internal/foundry/provider.go:200-224 | gathering, verifying and appending the entries compose to `PlanOperation`, with its two errors |
| Verification.PlanUnverified | internal/foundry/provider.go:265-274 | a dry run, a first deploy and a failed connection give the plan of the recorded state, with an advisory exactly when the connection is what is missing |
| Verification.PlanRefuses | internal/foundry/provider.go:200-209 | a refused request has no plan, for the reason it is refused; the only other failure is a missing project |
| Verification.LookupMeans | internal/foundry/client_real.go:324-342 | every HTTP answer: when it is an agent and with which served version, when a missing agent, when a missing project, and when merely a failure |
| Verification.MarkerAnywhere | internal/foundry/client_real.go:505 | the missing-project marker counts wherever it stands in the message and however it is capitalized |
| Verification.MissStartsOver | internal/foundry/provider.go:323-330 | after a genuine miss everything is planned from scratch, while hashes, staged name and preserved fields stay |
| Verification.OwnCodeIsConclusive | internal/foundry/client_real.go:499-503 | a 404 with the agents API's own code re-creates the agent in the plan whatever its message says: the plan neither fails nor carries an advisory |
| Verification.ShownPlanCoversApply | internal/foundry/provider.go:200-224 | the plan that is shown, verified against whatever the lookup answered, announces every call of the apply that follows |
| Verification.VerificationSafety | internal/foundry/provider.go:255-330 | from HTTP answer to plan: the agent is re-created exactly on a genuine miss, with the drift entry first and the rest the plan of the cleared state; any other answer leaves the plan of the recorded state, with an advisory unless it was found serving what is recorded; the plan fails exactly on a missing project |
| Verification.DriftIsPlannedNotApplied | internal/foundry/apply.go:96 | the plan announces the re-creation of a vanished agent that the apply, reading unverified state, never makes |
| DryRun.DryRunClient.CreateAgent | internal/foundry/client_dryrun.go:32-36 | a new record is filed under the name and the caller gets a separate copy of it |
| DryRun.DryRunClient.CreateVersion | internal/foundry/client_dryrun.go:41-52 | versions are active at once, ids increase, and the selector of a known agent already moves |
| DryRun.DryRunClient.GetAgent | internal/foundry/client_dryrun.go:55-61 | returns a fresh copy equal to the plane's own record, which it never exposes |
| DryRun.DryRunClient.SetEndpoint | internal/foundry/client_dryrun.go:71-81 | succeeds exactly for an agent of this plane and changes no other |
| DryRun.ScribbleOnCopy | internal/foundry/client_dryrun.go:105-111 | writing to a returned agent leaves the plane as it was |
| DryRun.DecimalIsInjective | internal/foundry/client_dryrun.go:17-20 | simulated version ids are never reused: decimal numerals of different numbers differ |
| DryRun.SimulatedCalls | internal/foundry/client_dryrun.go:31-81 | the calls of one operation against the object are answered as the abstract dry-run plane answers them |
| DryRun.DryRunOutcomes | internal/foundry/provider.go:65-73 | a dry run of a first deploy serves version 1; over a recorded agent it either has nothing to do or fails at the endpoint |
| DryRun.DryRunStateIsADeadEnd | internal/foundry/provider.go:65-73 | storing the state a first dry run returns makes every later run of applies unable to create the agent |
| AwaitVersion.Await | internal/foundry/client_real.go:289-321 | polls exactly while the version is creating and the deadline has not passed, returns what ended it, and looks the version up at most timeout/delay + 1 times, failed lookups included, whatever the statuses |
| AwaitVersion.AwaitedIsDetermined | internal/foundry/client_real.go:289-321 | statuses and clock determine poll count, status and error |
| AwaitVersion.DefaultPollBound | internal/foundry/client_real.go:289-321 | at most 301 lookups at the default delay and timeout, a failed one included |
| AwaitVersion.InFlightThroughRest | internal/foundry/client_real.go:295-300 | through this client in-flight is newly recorded only for a status other than creating, active or failed, and then with success; a version that timed out is on the plane, but the apply, a first deploy included, fails and records nothing of it |
| HandOff.FirstEnv | cmd/foundry-runtime/config.go:66-73 | the first non-empty variable, or nothing when all are empty |
| HandOff.LoadConfig | cmd/foundry-runtime/config.go:108-148 | filling and correcting the record equals `Load`, with its two errors |
| HandOff.LoadReports | cmd/foundry-runtime/config.go:108-148 | every environment: which of the two errors it gives, and the port, client id, pinned agent and tracing flag read from it |
| HandOff.EnvironmentHandOff | internal/foundry/versions.go:86-164 | for every accepted request that builds, whatever the platform injects: exactly one pack variable; the runtime reads back the pack, the bindings (as text, and decoded, given a decoder that undoes the encoder), tool specs, endpoint, tracing flag and OTLP endpoint that were meant (the platform's own unless tracing overrides it), builds the configured store unless the container cannot provide it, never reaching its unknown-kind or missing-URL branch, and can load the pack exactly when it was inlined |
| HandOff.StoreIsBuilt | cmd/foundry-runtime/sessionstore.go:61-114 | a store that passes config validation is built as configured from its three variables; the only failures left are a missing home, a directory that cannot be opened and a URL that does not parse, each exactly in its case |
| HandOff.StoreReports | cmd/foundry-runtime/sessionstore.go:61-114 | every kind of store, validated or not: which are refused and what the others are |
| HandOff.RuntimePrimaryBinding | cmd/foundry-runtime/providers.go:74-89 | the runtime's choice, which also takes a binding without a role, meets the same description as the adapter's |
| HandOff.BothSidesChooseTheSame | cmd/foundry-runtime/providers.go:74-89 | on the list the adapter injects both sides pick the same index, and there is one |
| HandOff.RuntimeUsesTheAdaptersModel | cmd/foundry-runtime/providers.go:60-89 | through the environment: the bindings the runtime decodes contain one for the model, and it is the one the adapter chose |
| StreamTurn.RunsAreSound | cmd/foundry-runtime/turn.go:149-193 | the invariant of every interleaving of producer, consumer and cancellation: what was received is what was read, what is written is what was received, and a closed text channel has a settled error behind it |
| StreamTurn.TurnMeans | cmd/foundry-runtime/turn.go:177-192 | what a turn has to say: the non-empty texts of its text chunks before the first error, and that error |
| StreamTurn.ChannelSafety | cmd/foundry-runtime/turn.go:149-165 | in every interleaving nothing is sent on or closed twice through a closed channel, the error channel always has room, and once the text channel is closed the consumer's last receive cannot block |
| StreamTurn.NoDeadlock | cmd/foundry-runtime/handlers.go:164-188 | until both sides have finished some step is enabled; only a producer whose reader returned early waits, for exactly the cancellation the server issues |
| StreamTurn.RunsTerminate | cmd/foundry-runtime/turn.go:168-193 | no schedule is longer than four steps a chunk and twelve more |
| StreamTurn.MaximalRunsFinish | cmd/foundry-runtime/turn.go:149-193 | a run that can go no further has both sides finished and the conversation closed |
| StreamTurn.ResponseOfEveryRun | cmd/foundry-runtime/turn.go:168-193 | every finished response is the sequential consumer's output for the texts received and error seen; those texts are a prefix of the non-empty texts before the first chunk error |
| StreamTurn.UncancelledRunsAgree | cmd/foundry-runtime/turn.go:168-193 | confluence: every uncancelled run leaves the same response, the one for the whole turn |
| StreamTurn.CancelledRunsArePrefixes | cmd/foundry-runtime/turn.go:184-190 | a cancelled response with no failed write is either the whole turn or a proper prefix of its texts followed by the cancellation error |
| StreamTurn.OpenFailureIsTold | cmd/foundry-runtime/turn.go:168-176 | a conversation that cannot be opened leaves an error status and nothing else, in every run, cancelled or not |
| SseWriter.Writer.EnsureHeader | cmd/foundry-runtime/handlers.go:200-206 | the header is written once and never again |
| SseWriter.Writer.Event | cmd/foundry-runtime/handlers.go:209-219 | reports whether the frame landed, and the wire grows by it exactly then |
| SseWriter.WriteSse | cmd/foundry-runtime/handlers.go:164-188 | the loop with its lazy header and early returns writes exactly `Output`, for every list of texts, final error and fate of each write |
| SseWriter.ThreeOutcomes | cmd/foundry-runtime/handlers.go:160-188 | over a response writer that stays failed, a response is a bare error status exactly when the error precedes any text, the whole stream exactly when no write failed, and otherwise exactly the part before the first failed write |
| SseWriter.FailedDeltaEndsIt | cmd/foundry-runtime/handlers.go:168-173 | over any writer, a delta that cannot be written ends the response after the deltas before it |
| SseWriter.ErrorEventCanBeLost | cmd/foundry-runtime/handlers.go:183-187 | a failed turn reads as a complete one exactly when the error frame's write fails and the next one succeeds |
| SseFraming.FrameDelivers | cmd/foundry-runtime/handlers.go:214 | read by section 9.2 of the HTML standard, a frame delivers its payload with its very last character and nothing before |
| SseFraming.CutReadsBack | cmd/foundry-runtime/handlers.go:209-225 | from any prefix of a body the reader gets exactly the payloads of the frames that are there in full |
| SseFraming.ResponseReadsBack | cmd/foundry-runtime/handlers.go:164-225 | the same for a whole turn, whose terminator is read exactly when every byte arrived |
| SseFraming.ReadingDeterminesTheTurn | cmd/foundry-runtime/handlers.go:52-54 | two turns that read the same have the same texts and the same error: no payload passes for the terminator |
| SseFraming.DoneMeansComplete | cmd/foundry-runtime/handlers.go:221-225 | over any writer that stays failed, the terminator is read if and only if no write failed |
| VoiceRelay.PumpResponses | cmd/foundry-runtime/ws_voice.go:203-216 | the pump's loop makes exactly the writes of `PumpFrames`: each chunk's audio, text and transcript in order if not empty, then done |
| VoiceRelay.ChunkFramesMean | cmd/foundry-runtime/ws_voice.go:204-213 | a chunk's frames are its audio, text and transcript, each if and only if it has one that is not empty, and in this order |
| VoiceRelay.ChunksInOrder | cmd/foundry-runtime/ws_voice.go:204-215 | a chunk's frames come before those of all later chunks, and done comes last |
| VoiceRelay.FramesAreWhole | cmd/foundry-runtime/ws_voice.go:233-239 | in every interleaving at most one side writes, and no frame on the wire is torn by another; only a frame in progress, or one cut off by the connection, can be half there |
| VoiceRelay.PumpIsInOrder | cmd/foundry-runtime/ws_voice.go:203-216 | the wire restricted to the pump is a prefix of its frames; it contains done if and only if it contains them all |
| VoiceRelay.ReadyOnce | cmd/foundry-runtime/ws_voice.go:129-149 | ready is sent at most once, and the handler's own frames are ready first and a close only right after its error |
| VoiceRelay.FailureIsTold | cmd/foundry-runtime/ws_voice.go:133-148 | while the connection holds, a handler with nothing left to write has written ready if the conversation opened, and after a failure to open or to relay an error naming it followed by the close frame |
| VoiceRelay.NoDeadlock | cmd/foundry-runtime/ws_voice.go:233-256 | until both goroutines are finished a step is enabled, and then the mutex is free |
| VoiceRelay.RunsTerminate | cmd/foundry-runtime/ws_voice.go:129-216 | no schedule is longer than four steps a frame and fifteen more |
| VoiceRelay.ReadyCanComeAnywhere | cmd/foundry-runtime/ws_voice.go:146-147 | for every number of pump frames, done included, some run has the client read exactly that many before ready |

## Left out

- Azure transport, credentials, role lookup and the speech-model grant: library
  calls; a failed grant is never fatal and never changes the state.
- What the runtime does when a store cannot be built (it serves without one).
- HTTP routing, request decoding, headers and flushing, server start-up, signals,
  tracing set-up and the file-system write of the pack.
- Validation of resource sizes, protocols, idle timeout, tags and binding shape:
  independent single checks. Leaving them out accepts more requests, so the
  theorems hold for more.
- Arena manifests, tool specs and Go templates: parsing by standard libraries;
  the arena is a map and the tool specs a text.
- Messages, progress, warnings, plan details, schema text and diagnostics.
- ListAgents, GetVersion of the dry-run plane, Import, and the choice of
  conversation key and options: single lookups or pure formatting.
- Changes made to the plane by others during a run: modelled only where the plan
  verifies recorded state.
- A lookup that fails during Status, which is returned as an error.
- Nil and empty slices and maps of the record are one value, as they are to the
  rest of the code once encoded with omitempty.
- BlobUri.StagedUriParses: container text with a query, fragment, percent escape,
  port or user information, where url.Parse does more than split.
- ControlPlane.Client.CreateVersion: the platform may create a version by itself
  when it creates an agent; only versions the adapter asked for are modelled.
- AgentSpecs.BuildAgentEnv: variable names are constructors of one enumeration,
  so that adapter and runtime spell them alike is not part of this model.
- VoiceRelay.PumpIsInOrder: the input side of the relay is only its outcomes
  (the socket ends, or the conversation refuses audio), and the two notions of
  time, deadlines and ping frames, are folded into writes that may fail.
- SseFraming.ResponseReadsBack: works on characters; UTF-8 decoding and an
  optional leading byte order mark are not part of this model.
