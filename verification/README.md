# Magic Stick: verified models of the stateful protocols

Dafny models of the parts of Magic Stick whose correctness depends on whole histories rather than on single
functions, with machine-checked proofs. `dafny verify dfyconfig.toml` checks everything.

**Private Mesh.** `MeshState` says what every control-plane operation does to an appliance's persistent state,
`MeshService` is the class that edits that state in transactions and is proved to compute exactly that, `MeshEffects`
says of each operation when it succeeds and what has changed then, in terms of what is stored, and `NativePolicy` is the
policy file with the native transport that reads it. `MeshProtocol` lets any number of
appliances and companions run these operations in any order, with time passing in between. Signed rosters are a set
that only grows: they may arrive late, twice, anywhere or never. Invitations, heartbeats and enrolment requests may be
any values at all, so nothing depends on who sends them. `MeshSafety`, `MeshRevocation` and `MeshHistory` prove what
holds in every run: namespaces, bounded revocation, single-use invites, roles, replay protection. `Base64Url` and
`InviteToken` are the invite tokens. `ModelSync` reconciles LiteLLM's routing table and ends with `ExportKeys`, the keys
of the exports; `ModelIds` is about the texts from which deployment identifiers are derived, `MeshRouting` shows where
requests end up, `MeshListing` shows that the rosters which that needs are those that appliances have, and
`SlidingWindow` with `ExportBridge` is the admission control.

**Service keys.** `KeyProtocol` is the protocol between the instance's Secret and LiteLLM's key registry as a state
machine whose steps are single API writes; `ServiceKeys` is the operator that issues them, and may be cut short at
any of them, before or after the write took effect. `KeyTracking` is about owners that move from one Secret location to
another: exactly which write loses track of a key, and exactly which runs never do.

**Regression runs.** `RegressionProtocol` lets the operator, the dashboard API and the cluster act on the same run
objects; what the operator remembers within a pass, and what the API is in the middle of, are part of the state.
`RegressionSafety` proves mutual exclusion, with a condition on five of the actions; `RegressionExactness` proves that no
condition can be spared, in any state; `RegressionRetention` is the retention of test accounts and where the verification
of a cleanup comes from; `RegressionRecovery` says when an account that is offered for recovery exists;
`RegressionLimits` reaches states in which each condition is missed. `RegressionRuns` is the operator's pass and
`RegressionApi` the API's cleanup, each proved to make only the calls that the protocol allows, with the others acting
between any two of its calls. What the operator reads about a run is recorded, so that what a run says afterwards is tied
to what was read. The operator's class comes with a constant `calm`: in calm surroundings (calls about a run
that is over, was never used and could still start raise no errors, the registered identities do not change under a
running Job, and the API and the cluster are orderly) the pass is proved to issue orderly calls only, so that everything
that is proved of orderly runs holds of it at every moment. All other calls may fail at any time.

**Federation, migration, groups.** `FederationProtocol` and `FederatedSso` are the staged update of identity
providers, `JsonPointer` and `MigrationPatch` the generated JSON Patch (RFC 6902 over RFC 6901), `GroupClosure` the
worklist of group ancestors.

In every class, a field `trace` or a counter records the calls made. A call to another system is a method that may
fail without effect, fail after taking effect, or succeed; so whatever is proved about the states in between holds at
every crash point. Five classes have a constant `smooth`: where it holds, no call fails, and the operations are proved to
succeed. Contracts that name a specification function come with others that say the same in terms of what was stored,
read and asked for. Clock readings, random identifiers and what other systems answer are parameters or arbitrary
values. In the mesh, all clocks agree and one operation reads its clock once.

## What the proofs found

- A rotation that is interrupted after its intent was saved, for an owner that then moves elsewhere and back, loses
  track of a key: `KeyProtocol.MovingBackLosesTrack`. A write loses track if and only if it registers a key that a
  Secret of the owner at another location does not list (`KeyTracking.LosesTrackExactly`), and the first service at a
  new location keeps track if and only if each Secret that the owner has elsewhere is recorded by one of its keys
  (`ServiceKeys.FirstServiceTracksExactly`).
- `ExportBridge.reserve` reads its clock before it takes the lock. Every single inversion of two start times can break
  the rate bound: `SlidingWindow.AnyInversionBreaksTheBound`.
- The 60-second memory for nonces and the 30-second window for timestamps meet at one point, where a heartbeat can be
  replayed: `MeshHistory.ReplayAtTheBoundary`.
- A failed read of the Job of a run that is over reports that run as recovering. In spite of the comment at
  regression_runs.py:259-260, this can open the lab to a second run (`RegressionLimits.FailedReadBreaksExclusion`); but
  only a run that was never used can do so, and failed reads of all others are harmless. So can a change of the
  registered identities under a running Job, an API that reports a run as failed while the operator can still start it
  or has started it, and a Job that ends before its Pods are gone. These are all ways: from every state that satisfies
  the invariant, an action opens a way to two runs in the lab, or to one whose account is gone, if and only if it is one
  of them (`RegressionExactness.OrderlyExactly`).
- A run that the API turns down because the installed schema does not know its selection is written as verified and
  not in need of recovery. If the API stops right there and the run was to recover an account, that account may go
  although no runner has verified anything: `RegressionLimits.TurningDownReleasesTheAccount`, the one exception to
  `RegressionRetention.DeletionFollowsVerification`.
- An account that was used and is offered for recovery exists if and only if no run of its family is settled, as long as
  no speaker takes back a release of an account that is gone or being cleaned up
  (`RegressionRecovery.OfferedAccountExists`, with the exact step in `RegressionRecovery.RecoveryExactly`). Both sides
  are real: an API that stops while it settles a family can leave an account on offer that is gone
  (`RegressionLimits.HalfSettledFamilyIsOffered`), which no later pass finishes
  (`RegressionApi.RegressionApi.CleanUpFinished`); and a failed read in the wrong moment can do the same without any
  settled run (`RegressionLimits.LateReportOffersGoneAccount`).
- A reconciliation of the export keys that fails between two calls leaves the store as it was while LiteLLM has lost
  keys. Retries repair that, unless the export has been changed back in between:
  `ExportKeys.ChangeAndChangeBack`.

## Model

| member | source | states |
|---|---|---|
| MeshNames.OneOwner | core/magicstick_core/private_mesh/mesh_service.py:404-407 | An export name starts with the prefix of at most one valid node name. |
| MeshNames.NoFurtherSlash | core/magicstick_core/private_mesh/mesh_service.py:33-34 | The model part of an export name contains no slash, so nothing nests below it. |
| MeshService.MeshService.CreateMesh | core/magicstick_core/private_mesh/mesh_service.py:198-221 | Succeeds if and only if the appliance is no companion and in no mesh, both names are valid and every selected model is ready with settings in range; then it owns a mesh of which it is the only, unrevoked member, with exactly the selected models as shares and no invites; otherwise nothing changes. |
| MeshService.MeshService.ShareModel | core/magicstick_core/private_mesh/mesh_service.py:239-247 | Succeeds if and only if a publishing member shares a ready local model with settings in range; then exactly this one share is stored, and from then on exactly this one export appears, with these settings, whenever the model is ready and enabled; otherwise nothing changes. |
| MeshService.MeshService.ExportModels | core/magicstick_core/private_mesh/mesh_service.py:254-264 | The loop returns an entry for every enabled and ready share under the name of the node, with its own settings, and no other entry; companions, clients and appliances outside a mesh export nothing. |
| MeshInvariants.ExportsAreTheReadyShares | core/magicstick_core/private_mesh/mesh_service.py:254-264 | A model is published if and only if it is shared, enabled and ready, and with its own settings. |
| MeshInvariants.NothingElseIsPublished | core/magicstick_core/private_mesh/mesh_service.py:254-264 | Whatever is published is the name of an enabled and ready share of a publishing member. |
| MeshService.MeshService.CreateInvite | core/magicstick_core/private_mesh/mesh_service.py:266-280 | The owner, and nobody else, stores an invite for a lifetime between a minute and a day: unused, unrevoked, with this secret and role, ending at the whole second now plus the lifetime; the envelope handed out says the same; other invites stay. |
| MeshService.MeshService.RevokeInvite | core/magicstick_core/private_mesh/mesh_service.py:282-287 | Succeeds if and only if the owner names an existing invite; then exactly this one changes and is unusable at every time, while other invites are usable as before. |
| MeshService.MeshService.RevokeNode | core/magicstick_core/private_mesh/mesh_service.py:289-296 | Succeeds if and only if the owner names a member other than itself; then exactly this entry is revoked and otherwise as before, and the member is not admitted. |
| MeshService.MeshService.Enroll | core/magicstick_core/private_mesh/mesh_service.py:311-332 | An enrolment is accepted if and only if a listed owner is presented a verified proof of a valid endpoint, other than its own, and of a name that no other member bears, with an invite that is unrevoked, unused and not over, and with the secret of that invite; then exactly this member, with the role of the invite, and exactly this invite change, and the answer is a roster of the members as stored. A proof that does not meet this changes nothing. |
| MeshEffects.EnrolmentIsSeen | core/magicstick_core/private_mesh/mesh_service.py:311-331 | The same of the transaction alone, for every state and proof, whether or not the owner is still listed. |
| MeshService.MeshService.SignedRoster | core/magicstick_core/private_mesh/mesh_service.py:357-367 | Signs if and only if the appliance owns the mesh and is listed in it; the roster lists the members exactly as stored, for 120 seconds from this whole second, with only the owner's entry brought up to date. |
| MeshService.MeshService.CheckPublication | core/magicstick_core/private_mesh/mesh_service.py:399-408 | The loop reports the first entry that is not the member's own or out of range, exactly as specified. |
| MeshService.MeshService.Heartbeat | core/magicstick_core/private_mesh/mesh_service.py:383-410 | A claim is accepted if and only if it is verified, from a member in force, for the right path, within 30 seconds of the owner's clock, with a nonce that was not used within 60 seconds, and publishes at most 128 models under the member's own name within their ranges, or nothing as a client; then exactly this entry and the nonces change, and nonces whose 60 seconds are over are forgotten; a refused claim changes nothing. |
| MeshEffects.HearingIsSeen | core/magicstick_core/private_mesh/mesh_service.py:383-409 | The same of the transaction alone; the stored exports are those of the claim, entry by entry. |
| MeshService.MeshService.JoinMesh | core/magicstick_core/private_mesh/mesh_service.py:334-355 | Succeeds if and only if the appliance is in no mesh, the invite is not over (and for a client, on a companion), and the answer is a current roster of the invited mesh, signed by its owner, that lists the appliance in force with the invited role; then mesh, name, role and roster are taken from it and nothing else changes. |
| MeshHistory.JoiningIsAuthorized | core/magicstick_core/private_mesh/mesh_service.py:334-355 | Who joins holds a current roster of the invited mesh, signed by its owner, that lists it with the invited role. |
| MeshService.MeshService.RefreshMembership | core/magicstick_core/private_mesh/mesh_service.py:412-426 | A member stores the answer if and only if it is a current roster of its mesh, signed by its owner, that lists it in force; an owner stores the roster that it signs, if and only if it is listed; otherwise nothing is stored. |
| MeshService.MeshService.LeaveMesh | core/magicstick_core/private_mesh/mesh_service.py:448-452 | Afterwards no enrolment succeeds, nobody is admitted and nothing is exported; the replay protection stays. |
| MeshEffects.AuthorizedExactly | core/magicstick_core/private_mesh/integration.py:218-225 | The bridge serves a peer if and only if the token is right, the appliance is no companion, and the stored roster is not over and lists the peer in force. |
| MeshInvariants.OutcomeKeeps | core/magicstick_core/private_mesh/mesh_service.py:130-141 | Every operation keeps names unique, exports under the exporter's own name and the owner's own entry in force. |
| MeshInvariants.HeartbeatKeeps | core/magicstick_core/private_mesh/mesh_service.py:399-409 | A publication that is accepted keeps the namespaces apart. |
| MeshSafety.StepKeepsInvariant | core/magicstick_core/private_mesh/mesh_service.py:311-376 | One step of anybody keeps the invariant of the whole mesh: members, stored rosters, policy files, signed rosters. |
| MeshSafety.EveryRunIsOk | core/magicstick_core/private_mesh/mesh_service.py:311-376 | The invariant holds in every reachable state. |
| MeshSafety.NamespacesAreDisjoint | core/magicstick_core/private_mesh/mesh_service.py:325-330 | In every reachable state, in the owner's books and in every signed roster: unique names, no exports of clients, no model of two members. |
| MeshSafety.AnnouncementsAreDisjoint | core/magicstick_core/private_mesh/native/magicstick_policy.rs:59-70 | The transport of one appliance never accepts announcements of one model from two peers. |
| MeshRevocation.RevocationIsBounded | core/magicstick_core/private_mesh/mesh_service.py:289-296 | Whatever happens after a revocation, short of a new enrolment: 120 seconds later no appliance of the mesh has an active roster that admits the member or serves it, and no policy file written from the owner's rosters lists it. |
| MeshRevocation.RunBars | core/magicstick_core/private_mesh/mesh_service.py:357-376 | Through any run without a new enrolment, the owner's books and all its later rosters keep the member out. |
| MeshRevocation.RevokedPeerIsCutOff | core/magicstick_core/private_mesh/native/magicstick_policy.rs:33-70 | Then, where one owner has signed every roster, the transport, with its whole-second clock, lets the peer neither serve nor open streams nor announce. |
| MeshRevocation.ARosterSurvivesItsLifetime | core/magicstick_core/private_mesh/mesh_service.py:428-431 | The bound is tight: a roster signed just before admits exactly until its whole second plus 120. |
| NativePolicy.WholeSecondsAgree | core/magicstick_core/private_mesh/native/magicstick_policy.rs:33-46 | The transport's reading in whole seconds and the control plane's reading of the same roster admit the same peers. |
| NativePolicy.RunsOnlyForMembers | core/magicstick_core/private_mesh/runtime.py:96-127 | After a pass of the runtime, a transport that runs belongs to a member in force, and to a client on a companion; this collects the tests that the pass makes. |
| NativePolicy.ServesExactly | core/magicstick_core/private_mesh/native/magicstick_policy.rs:33-50 | From the policy file, the transport lets a peer serve if and only if the stored roster is not over and lists it in force and as no client. |
| NativePolicy.StreamsExactly | core/magicstick_core/private_mesh/native/magicstick_policy.rs:52-57 | It lets a peer open a stream if and only if that roster lists it in force and the stream is of one of five kinds. |
| NativePolicy.AnnouncesExactly | core/magicstick_core/private_mesh/native/magicstick_policy.rs:59-71 | It accepts an announcement if and only if that roster lists the peer in force, and a client names no model, or all models named bear the name of the peer and are published by it. |
| MeshHistory.InvitesAreSingleUse | core/magicstick_core/private_mesh/mesh_service.py:311-331 | Over every run, an invite yields at most one enrolment. |
| MeshHistory.NoEnrolmentAfterTheEnd | core/magicstick_core/private_mesh/mesh_service.py:282-287 | None after its revocation, its expiry or the owner's leaving. |
| MeshHistory.EnrolmentsPresentTheirSecret | core/magicstick_core/private_mesh/mesh_service.py:311-331 | Over every run, whoever is enrolled has presented the secret with which this owner had issued the invite earlier in the run, before the lifetime named then was over, and gets the role named then. |
| MeshHistory.InvitesWereIssued | core/magicstick_core/private_mesh/mesh_service.py:266-280 | In every reachable state, each invite on record was issued in the run with exactly its secret, role and end. |
| MeshHistory.RunStaysDead | core/magicstick_core/private_mesh/mesh_service.py:321-324 | An invite that cannot be used any more never can again. |
| MeshHistory.RolesComeFromInvites | core/magicstick_core/private_mesh/mesh_service.py:327-331 | In every reachable state, a member's role is the type of the invite it consumed last. |
| MeshHistory.OwnEntryStays | core/magicstick_core/private_mesh/mesh_service.py:289-296 | As long as the owner does not leave, no run revokes, renames or replaces its entry. |
| MeshHistory.CreatorKeepsItsEntry | core/magicstick_core/private_mesh/mesh_service.py:198-221 | Whoever creates a mesh keeps the entry it created until it leaves, over every run. |
| MeshHistory.OwnersCanSign | core/magicstick_core/private_mesh/mesh_service.py:357-367 | In every reachable state, the owner of a mesh is listed in it and in force, and can sign its roster. |
| MeshHistory.NobodyAnswersItself | core/magicstick_core/private_mesh/mesh_service.py:334-345 | An appliance in no mesh accepts no enrolment and signs no roster, so who joins is answered by somebody else. |
| MeshHistory.ClaimsAreAcceptedOnce | core/magicstick_core/private_mesh/mesh_service.py:391-398 | A claim is accepted twice only if dated exactly 30 seconds ahead, and then exactly 60 seconds later. |
| MeshHistory.ReplayAtTheBoundary | core/magicstick_core/private_mesh/mesh_service.py:391-398 | An accepted claim is accepted again at a later time if and only if it is that one point. |
| MeshHistory.CompanionsOnlyConsume | core/magicstick_core/private_mesh/mesh_service.py:184-196 | In every run a consume-only companion owns no mesh, is a client, exports nothing and signs nothing. |
| Base64Url.RoundTrip | core/magicstick_core/private_mesh/mesh_service.py:55-65 | Unpadded base64url of any byte string decodes to exactly that string, up to the size limit, beyond which it is refused. |
| Base64Url.EncodeShape | core/magicstick_core/private_mesh/mesh_service.py:55-56 | The encoding has letters only and exactly the length that sections 3.2 and 5 of RFC 4648 imply. |
| Base64Url.GroupsAreNumbers | core/magicstick_core/private_mesh/mesh_service.py:55-56 | Three bytes, as one number to the base 256, are the four letters of that number to the base 64. |
| InviteToken.InviteRoundTrip | core/magicstick_core/private_mesh/mesh_service.py:266-309 | Given a lossless JSON codec, a printed token decodes to exactly its envelope if it is within the limit and unexpired, and is refused otherwise. |
| InviteToken.TokensAreDistinct | core/magicstick_core/private_mesh/mesh_service.py:266-280 | Given such a codec, no token within the limit stands for two envelopes. |
| InviteToken.OnlySignedInvites | core/magicstick_core/private_mesh/mesh_service.py:298-309 | Whatever string is accepted carries the signature that the authority it names makes, and has not expired; this collects the tests of the decoder. |
| InviteToken.TokenLength | core/magicstick_core/private_mesh/mesh_service.py:300-301 | The limit on tokens is a limit of 12282 bytes on what they carry. |
| ModelSync.ModelSync.UpdateImports | core/magicstick_core/private_mesh/integration.py:130-143 | Afterwards a model is imported if and only if the appliance may export and is in a mesh, and the model is either discovered and exported by another listed, unrevoked member that is no client and bears the name of the node, or was imported before, is so exported if there is a roster, and is missing for less than two minutes. |
| ModelSync.ImportsAreSeen | core/magicstick_core/private_mesh/integration.py:100-143 | This is what the steps of the two loops amount to, for all rosters, discoveries and imports. |
| ModelSync.ModelSync.Write | core/magicstick_core/private_mesh/integration.py:163-171 | Every wanted deployment is in place with its fingerprint, nothing else changes, and a conflicting name ends the pass. |
| ModelSync.ModelSync.Prune | core/magicstick_core/private_mesh/integration.py:172-174 | Only own entries that are not wanted are deleted. |
| ModelSync.ModelSync.Reconcile | core/magicstick_core/private_mesh/integration.py:91-180 | However it ends, entries of others are untouched, and the imports are as above. On success the own entries are exactly those of the deployments that are due (ready local models and exports under their own names; imports under their own, and as a fallback under the bare name where all other entries are local defaults), none forwards to a model that no unrevoked member exports if there is a roster, and every export has a fitting key. If no call fails, it succeeds if and only if nobody else has an entry under a name that is due; if the entries already were the wanted ones, none is written. |
| ModelSync.TableIsSeen | core/magicstick_core/private_mesh/integration.py:118-174 | A reconciled table holds an own entry for every deployment that is due, with its fingerprint, and no other own entry. |
| ModelSync.RoutesAreSeen | core/magicstick_core/private_mesh/integration.py:100-143 | So no own entry forwards to a model that only revoked members export. |
| ModelIds.TextsAreDistinct | core/magicstick_core/private_mesh/integration.py:81-89 | Two wishes whose identifiers are derived from the same text of owner, name and backend are the same wish, whatever local models are called, so no deployment overwrites another. |
| ModelIds.ImportsAreWellNamed | core/magicstick_core/private_mesh/integration.py:102-110 | The names that this needs of imports are those that rosters can list. |
| ModelSync.ReconciliationConverges | core/magicstick_core/private_mesh/integration.py:144-180 | After a success, another pass on the same inputs, now or later within the grace, finds everything in place. |
| ModelSync.ImportsConverge | core/magicstick_core/private_mesh/integration.py:130-143 | A pass over the imports is idempotent. |
| ExportKeys.ExportKeys.Reconcile | core/magicstick_core/private_mesh/integration.py:182-201 | Success leaves exactly one key for each export: the old one, if that was made for the same configuration and lasts for more than ten minutes, or else a new one for a day; it takes one call for each key that goes or comes; a key that LiteLLM lacks is one that fitted and was dead; failure means that one of these calls failed, and leaves the store alone. |
| ExportKeys.DueStaysDue | core/magicstick_core/private_mesh/integration.py:186-190 | A key that LiteLLM lacks and that is due stays due as time passes, so retries for the same exports replace it. |
| ExportKeys.ChangeAndChangeBack | core/magicstick_core/private_mesh/integration.py:186-201 | Three reconciliations, the second of which loses the answer to a deletion: the third succeeds and keeps a key that LiteLLM no longer has. |
| MeshRouting.NoneOwnIsKept | core/magicstick_core/private_mesh/integration.py:102-110 | No pass adds an import under the appliance's own name, and a pass with a roster leaves none. |
| MeshRouting.NeverImportsItself | core/magicstick_core/private_mesh/integration.py:128-143 | Over all passes of an appliance whose rosters list it under its name, it never has an import under that name. |
| MeshListing.MembersNeverImportThemselves | core/magicstick_core/private_mesh/mesh_service.py:334-376 | In every run of the mesh, all rosters that a member reconciles with list it under the one name that its owner has enrolled it under, so it never has an import under that name. |
| MeshListing.MembersAreListed | core/magicstick_core/private_mesh/mesh_service.py:339-376 | In every reachable state, the roster that a member acts on is namespaced and lists it under that name. |
| MeshListing.OwnersAreListed | core/magicstick_core/private_mesh/mesh_service.py:357-367 | And that of an owner lists it under the name that it has taken. |
| MeshRouting.ReconciledIsInPlace | core/magicstick_core/private_mesh/integration.py:144-174 | What a successful reconciliation wanted is what is wanted of, in place in, and free of conflicts in the table it leaves. |
| MeshRouting.ExportsAreOwn | core/magicstick_core/private_mesh/integration.py:163-167 | After a success, nobody else has an entry under the name of one of the appliance's exports. |
| MeshRouting.RoutingIsLoopFree | core/magicstick_core/private_mesh/integration.py:118-167 | Among appliances whose last reconciliation succeeded, every chain of deployments is at most two long, never returns to its origin, and ends at a ready local model of the second appliance. |
| SlidingWindow.EveryWindowIsBounded | core/magicstick_core/private_mesh/integration.py:261-270 | With start times that never run back, no minute, wherever it begins, holds more than the configured requests or tokens. |
| SlidingWindow.OfferKeepsBound | core/magicstick_core/private_mesh/integration.py:266-270 | The guard keeps that bound as long as nothing younger than a minute was evicted. |
| SlidingWindow.AnyInversionBreaksTheBound | core/magicstick_core/private_mesh/integration.py:263-266 | For every two times in the wrong order there are calls that break the bound. |
| ExportBridge.ExportBridge.Prune | core/magicstick_core/private_mesh/integration.py:265-267 | The eviction loop drops exactly the leading entries that are a minute old. |
| ExportBridge.ExportBridge.Reserve | core/magicstick_core/private_mesh/integration.py:261-279 | After the leading entries that are a minute old are dropped, a request is admitted if and only if the model has fewer in flight, fewer entries and few enough tokens than configured; then exactly one entry, one count per model and one in the row of the peer (or the common row, when 512 are in use) are added, and concurrency stays within its limits; a refusal changes the window alone. |
| ExportBridge.ExportBridge.Release | core/magicstick_core/private_mesh/integration.py:280-293 | A release undoes exactly one open reservation, and counts an error in its row if it failed. |
| ExportBridge.ExportBridge.RateHolds | core/magicstick_core/private_mesh/integration.py:261-293 | Of every bridge in every state: a model that was always called under one configuration, with clock readings that never ran back, keeps its bound in every minute. |
| ExportBridge.PlayedUnderOne | core/magicstick_core/private_mesh/integration.py:261-270 | What calls under changing configurations leave of a window is, under a single one, what the bound is proved of. |
| ExportBridge.ExportBridge.ActiveIsTheSumOverModels | core/magicstick_core/private_mesh/integration.py:271-290 | The overall count of active requests is the sum of the counts per model, in every state of a bridge. |
| ExportBridge.CountedTotal | core/magicstick_core/private_mesh/integration.py:271-290 | The per-model counts add up to the number of open reservations. |
| KeyProtocol.RunKeepsWellFormed | magic-cluster/platform/magicstick-operator/service_keys.py:162-206 | After any writes, pending and retiring never coexist, at most one key retires, and no key plays two parts. |
| KeyTracking.MovingOwnersKeepTrack | magic-cluster/platform/magicstick-operator/service_keys.py:129-206 | Wherever the operator is interrupted, every Secret that an owner has lists every key that LiteLLM has for it, at most two, if the owner never gets a Secret while it has another; it may move as often as it likes otherwise. |
| KeyProtocol.EveryKeyAccountedFor | magic-cluster/platform/magicstick-operator/service_keys.py:129-206 | The special case of an owner whose Secrets are only ever made at one location: the Secret there lists every key at every crash point. |
| KeyTracking.LosesTrackExactly | magic-cluster/platform/magicstick-operator/service_keys.py:142-206 | A write loses track of a key if and only if it registers one that a Secret of the owner at another location does not list. |
| KeyTracking.TrackIsKeptExactly | magic-cluster/platform/magicstick-operator/service_keys.py:129-206 | A run keeps track in all of its states if and only if it contains no such write. |
| KeyTracking.MovingAwayLosesTrack | magic-cluster/platform/magicstick-operator/service_keys.py:143-206 | After a new Secret, the first registration keeps track if and only if the owner had no other Secret. |
| KeyTracking.MovingAwayIsLost | magic-cluster/platform/magicstick-operator/service_keys.py:143-206 | Any run in which an owner gets a Secret while it has another can lose track with its next write. |
| KeyTracking.EnsuringKeepsTrack | magic-cluster/platform/magicstick-operator/service_keys.py:129-206 | At every crash point of a reconciliation all keys stay tracked, if each Secret that the owner has elsewhere is recorded by one of its keys. |
| KeyProtocol.AtMostTwo | magic-cluster/platform/magicstick-operator/service_keys.py:162-206 | Hence at most two keys of an owner exist at a time. |
| KeyProtocol.CoverageIsKeptAndNeverRepaired | magic-cluster/platform/magicstick-operator/service_keys.py:162-206 | At one location, no single write of a rotation loses track of a key, and none brings a lost one back. |
| KeyProtocol.MovingBackLosesTrack | magic-cluster/platform/magicstick-operator/service_keys.py:142-152 | A move away and back around an interruption loses track of a key. |
| KeyProtocol.ActiveKeyAlwaysRegistered | magic-cluster/platform/magicstick-operator/service_keys.py:186-206 | The active key is registered in every reachable state, unless somebody else removes it. |
| KeyProtocol.ReplacedKeyKeepsItsGrace | magic-cluster/platform/magicstick-operator/service_keys.py:162-199 | A replaced key stays registered and listed until its time is up, whatever rotations and crashes follow. |
| KeyProtocol.PromotionStartsTheGrace | magic-cluster/platform/magicstick-operator/service_keys.py:197-204 | The key that a promotion replaces retires 900 seconds later. |
| ServiceKeys.ServiceKeys.Ensure | magic-cluster/platform/magicstick-operator/service_keys.py:129-206 | Every way out leaves only writes that the protocol allows, and keeps all keys tracked if other Secrets of the owner are recorded. A call that succeeds changes the active key exactly when one is pending or missing, or when a new one is requested and no grace runs; it then stores and returns the new revision and retires the old key for 900 seconds, and otherwise keeps key and revision; the active key is registered and usable, keys whose time is up are gone, all other keys and Secrets are as before. Disabled, every key in use is blocked. It succeeds if no call fails and nobody else has the Secrets or keys that are in the way. |
| ServiceKeys.SecretIsSeen | magic-cluster/platform/magicstick-operator/service_keys.py:153-206 | What a service does to the Secret, in terms of what it held before: active key, request, revision, pending key and grace. |
| ServiceKeys.KeysAreSeen | magic-cluster/platform/magicstick-operator/service_keys.py:162-206 | And to the registry: one key is registered or unblocked, expired ones are gone, and nothing else has changed. |
| ServiceKeys.FirstIsSeen | magic-cluster/platform/magicstick-operator/service_keys.py:142-206 | The first service leaves one key, the new one, with the new revision; lost keys and the Secrets that they name are gone, and those of other owners are as before. |
| ServiceKeys.RevisionFollowsTheKey | magic-cluster/platform/magicstick-operator/service_keys.py:198-206 | The published revision changes with the active key, and only with it. |
| ServiceKeys.ServiceKeys.RetireExpired | magic-cluster/platform/magicstick-operator/service_keys.py:162-172 | The loop removes exactly the keys whose time is up from both stores. |
| ServiceKeys.ServiceKeys.RevokeLostKeys | magic-cluster/platform/magicstick-operator/service_keys.py:143-148 | Without a Secret, every key of the owner and every Secret its record names are gone before a new one is made. |
| ServiceKeys.ServiceKeys.Register | magic-cluster/platform/magicstick-operator/service_keys.py:188-196 | The selected key is registered for its owner and unblocked, or an error is raised. |
| ServiceKeys.ServiceKeys.Activate | magic-cluster/platform/magicstick-operator/service_keys.py:186-206 | A pending key is promoted after its registration, and the result is the stored revision. |
| ServiceKeys.ServiceKeys.BlockAll | magic-cluster/platform/magicstick-operator/service_keys.py:124-127 | The loop blocks exactly the given keys. |
| ServiceKeys.ServiceKeys.Delete | magic-cluster/platform/magicstick-operator/service_keys.py:219-234 | Success leaves no key of the owner and, of the Secrets, neither its own nor one that such a key named, and all others as before; while a key is left, so is the Secret. It succeeds if no call fails and no Secret in the way is somebody else's. |
| ServiceKeys.SuspensionBlocksEveryKey | magic-cluster/platform/magicstick-operator/service_keys.py:175-178 | A successful call for a disabled instance leaves every key it owns blocked. |
| ServiceKeys.RotationConverges | magic-cluster/platform/magicstick-operator/service_keys.py:179-206 | With one requested revision, no failures and a Secret in place, a call leaves nothing pending and one after the grace period has reached the revision. |
| ServiceKeys.FirstServiceConverges | magic-cluster/platform/magicstick-operator/service_keys.py:143-206 | A first call that finds no Secret reaches the requested revision at once, with the new key as the owner's only one. |
| ServiceKeys.SettledIsStable | magic-cluster/platform/magicstick-operator/service_keys.py:179-206 | Once settled, a further call changes nothing. |
| ServiceKeys.MoveLeavesNoSecretBehind | magic-cluster/platform/magicstick-operator/service_keys.py:208-217 | An owner that is served at a new location has no other Secret left if and only if each it had was recorded by one of its keys. |
| ServiceKeys.FirstServiceTracksExactly | magic-cluster/platform/magicstick-operator/service_keys.py:143-206 | Under exactly that condition the first service at a location leaves all keys tracked. |
| ServiceKeys.ServiceTracksExactly | magic-cluster/platform/magicstick-operator/service_keys.py:153-206 | A later service leaves all keys tracked if and only if the key it registers was registered before or is listed by every other Secret. |
| RegressionProtocol.AtMostOneJob | magic-cluster/platform/magicstick-operator/regression_runs.py:165-190 | At most one Job is ever requested for a run, whatever fails, disappears or is overwritten. |
| RegressionSafety.OneRunAtATime | magic-cluster/platform/magicstick-operator/regression_runs.py:242-262 | In every state of an orderly run at most one run occupies the lab, and every run created before it is over, or can never have a Job again. |
| RegressionExactness.OrderlyExactly | magic-cluster/platform/magicstick-operator/regression_runs.py:75-262 | From every state that satisfies the invariant: an action is orderly if and only if no orderly actions after it lead to two runs in the lab, or to a run in the lab without its account. |
| RegressionExactness.SafeExactly | magic-cluster/platform/magicstick-operator/regression_runs.py:75-262 | And if and only if it keeps the invariant. |
| RegressionRuns.RecoverableReopens | magic-cluster/platform/magicstick-operator/regression_runs.py:258-262 | A failed read of a run that is listed as unfinished, was used, or can never start is harmless. |
| RegressionRetention.AccountsAreRetained | magic-cluster/apps/dashboard/regression_api.py:654-687 | When an account may be deleted, none of its runs is live or could start with it; they were over when the API decided so, and if a full-mode Job ever used the account, the run that speaks for it then said that cleanup was verified and nothing needed recovery. |
| RegressionRetention.DeletionFollowsVerification | magic-cluster/apps/dashboard/regression_api.py:661-672 | And a runner had reported that verification, unless the API itself turned that run down. |
| RegressionRetention.VerificationHasASource | magic-cluster/platform/magicstick-operator/regression_runs.py:207-224 | A full-mode run says verified only because its runner did, the API turned it down, or its family is settled. |
| RegressionSafety.LiveRunsHaveTheirAccount | magic-cluster/platform/magicstick-operator/regression_runs.py:187-190 | A run that occupies the lab has its account. |
| RegressionRetention.SpeakerIsFull | magic-cluster/apps/dashboard/regression_api.py:179-186 | A family with a full-mode run is spoken for by a full-mode run. |
| RegressionSafety.RunIsSafe | magic-cluster/platform/magicstick-operator/regression_runs.py:75-262 | The invariant behind these holds in every state of an orderly run. |
| RegressionLimits.FailedReadBreaksExclusion | magic-cluster/platform/magicstick-operator/regression_runs.py:258-262 | After a failed read of a run that is over and was never used, two runs can be live. |
| RegressionLimits.ChangedIdentityBreaksExclusion | magic-cluster/platform/magicstick-operator/regression_runs.py:139-150 | After a change of identities under a Job, two runs can be live. |
| RegressionLimits.LateGivingUpBreaksExclusion | magic-cluster/apps/dashboard/regression_api.py:523-527 | After the API gives up on a run that it has declared ready, two runs can be live. |
| RegressionLimits.OrphanedPodsBreakExclusion | magic-cluster/platform/magicstick-operator/regression_runs.py:114-135 | After a Job vanishes, or is declared finished, before its Pods are gone, two runs can be live. |
| RegressionLimits.TurningDownReleasesTheAccount | magic-cluster/apps/dashboard/regression_api.py:506-512 | A run that the API turns down can release an account that a failed full-mode Job wants recovered, with no runner having verified anything. |
| RegressionRecovery.OfferedAccountExists | magic-cluster/apps/dashboard/regression_api.py:167-177 | In every state of an orderly run, a used account that is offered for recovery exists if and only if no run of its family is settled, provided that no speaker has taken back a release too late. |
| RegressionRecovery.RecoveryExactly | magic-cluster/apps/dashboard/regression_api.py:431-527 | A step keeps what this rests on if and only if it is not such a report. |
| RegressionLimits.HalfSettledFamilyIsOffered | magic-cluster/apps/dashboard/regression_api.py:167-177 | A cleanup that stops between two runs of a family can leave recovery on offer for an account that is gone. |
| RegressionLimits.LateReportOffersGoneAccount | magic-cluster/platform/magicstick-operator/regression_runs.py:258-262 | So can a late report about the speaker, with no run of the family settled. |
| RegressionRuns.RegressionRuns.Reconcile | magic-cluster/platform/magicstick-operator/regression_runs.py:75-229 | Success means that the run says what was read about it: for each phase exactly when it is written (passed or blocked if and only if its Job succeeded and the report says so, or, for blocked, the lab, the runner or the image is not as required), what it then says about recovery and cleanup, and whether it goes on; that a Job was requested, after its use was recorded, if and only if all conditions hold, and deleted if and only if a cancelled run has one; and that everything that decides was read meanwhile. If no call fails, it succeeds; failure touches no other run. |
| RegressionRuns.ExecutedSays | magic-cluster/platform/magicstick-operator/regression_runs.py:90-229 | A plan that was carried out leaves the run saying exactly that, for all that can be observed. |
| RegressionRuns.CarriedFits | magic-cluster/platform/magicstick-operator/regression_runs.py:114-193 | And it has made exactly those calls. |
| RegressionRuns.RegressionRuns.Start | magic-cluster/platform/magicstick-operator/regression_runs.py:187-193 | The use of the account is recorded before the one request for the Job. |
| RegressionRuns.RegressionRuns.Withdraw | magic-cluster/platform/magicstick-operator/regression_runs.py:114-135 | A cancelled run is over only when it has neither Job nor Pods. |
| RegressionRuns.RegressionRuns.Follow | magic-cluster/platform/magicstick-operator/regression_runs.py:194-229 | The runner's report is read and taken over; a finished Job ends the run as passed or blocked if and only if it did not fail and the report says so, and as failed otherwise. |
| RegressionRuns.RegressionRuns.ReconcileAll | magic-cluster/platform/magicstick-operator/regression_runs.py:242-262 | All calls of a pass are such that a run starts only if everything before it is over or settled, and at most one run is started in a pass, also if the handling of others fails; every run is dealt with; in calm surroundings, in which only calls about runs that are over and could still start must not fail, all of the calls are orderly, so that at most one run occupies the lab, with its account; and if no call fails, the pass succeeds for every run. |
| RegressionRuns.FreeMeansSettled | magic-cluster/platform/magicstick-operator/regression_runs.py:244-257 | The two loop variables suffice: not busy and no other unsettled account means that everything before is settled. |
| RegressionRuns.PassesOn | magic-cluster/platform/magicstick-operator/regression_runs.py:246-257 | Dealing with one more run keeps what the pass knows. |
| RegressionRuns.LaunchesExactlyWhen | magic-cluster/platform/magicstick-operator/regression_runs.py:83-190 | A Job is requested if and only if all of its conditions hold; this reads them off the branches of the plan. |
| RegressionRuns.FreesTheLab | magic-cluster/platform/magicstick-operator/regression_runs.py:75-229 | A plan that frees the lab ends the run or leaves it queued behind others, branch by branch. |
| RegressionRuns.ReleasesOnlyVerified | magic-cluster/platform/magicstick-operator/regression_runs.py:207-224 | A finished full-mode run gives its account free only after a verified cleanup and never after a failed Job; this reads the branches of the plan. |
| RegressionApi.RegressionApi.FamilyIsQuiet | magic-cluster/apps/dashboard/regression_api.py:655-660 | The loop succeeds only if all other runs of the listed family are over; if no call fails, then exactly then, as Pods never stand in the way of a cleanup that was decided on. |
| RegressionApi.RegressionApi.RequireReleased | magic-cluster/apps/dashboard/regression_api.py:661-672 | Success if and only if the account is unused or its speaker releases it; otherwise nothing is settled and the run is marked for recovery, unless that write fails. |
| RegressionApi.RegressionApi.CleanUp | magic-cluster/apps/dashboard/regression_api.py:654-687 | Unless all runs of the family were over and a used account was released by its speaker, it fails and neither removes an account nor settles a run; otherwise it succeeds if no call fails; success removes the account and settles every run of the family, as not in need of recovery if the account was still there, and with a verified cleanup if it was never used or else the speaker's; nothing is removed or settled before the Pods of the family and the owner of Secret and identity have been checked; no other account goes and no run of another family is settled. |
| RegressionApi.ChecksAreFirst | magic-cluster/apps/dashboard/regression_api.py:654-687 | Whatever has been removed was removed after all checks had been passed. |
| RegressionApi.RegressionApi.Settle | magic-cluster/apps/dashboard/regression_api.py:678-687 | The loop marks every run of the family, in any order and with the given values, and no run of another family. |
| RegressionApi.RegressionApi.CleanUpFinished | magic-cluster/apps/dashboard/regression_api.py:689-701 | Every family has an outcome, also if others fail: what is done is settled as a whole and its account gone, and no further run is settled of a family whose speaker was settled before, so a half-settled family is never finished. |
| RegressionApi.RegressionApi.CleanUpFamily | magic-cluster/apps/dashboard/regression_api.py:692-696 | If no call fails, a family is settled if and only if its speaker (the consumer on record, or else its youngest run) is not settled, all its runs are over and the speaker releases the account; no run of another family is settled. |
| RegressionApi.LatestFamilySpeaks | magic-cluster/apps/dashboard/regression_api.py:179-186 | The selection is the recorded consumer if it is of the family, or else the youngest. |
| RegressionApi.SpeaksExactly | magic-cluster/apps/dashboard/regression_api.py:179-186 | And exactly so, for every state: the consumer on record if that and the account's own run use the account, or else the youngest run that does. |
| RegressionApi.CandidateExactly | magic-cluster/apps/dashboard/regression_api.py:167-177 | A run is offered for recovery if and only if everything that is not settled is over and uses its account, it needs recovery, and it speaks among those runs. |
| RegressionApi.RecoveryExcludesDeletion | magic-cluster/apps/dashboard/regression_api.py:167-177 | An account that exists, was used and is offered for recovery cannot be cleaned up, also if its family is settled in part. |
| FederationProtocol.EveryRunIsSafe | dashboard/apps/api/federated_sso.py:175-210 | Wherever a save is cut short, an enabled managed provider has the settings and the complete mappers of one validated configuration: the protocol enables a provider only under that guard, and `FederatedSso.Save` is proved to meet it. |
| FederationProtocol.ExternalMappersAreUntouched | dashboard/apps/api/federated_sso.py:187-196 | Mappers that the dashboard does not manage survive every sequence of writes. |
| FederatedSso.FederatedSso.Save | dashboard/apps/api/federated_sso.py:148-212 | A save that was reviewed (valid rules; a new provider that nobody reviewed, or a managed one of the same protocol that was reviewed as it is) and entitled leaves exactly the configuration, and the mappers of others; if it was not, nothing is written; an interruption leaves nothing new, a disabled provider or the whole. If no call fails, it succeeds unless the entitlement for an enabled provider has gone meanwhile: then an existing provider stays disabled and a new one is removed. |
| FederatedSso.ReviewedExactly | dashboard/apps/api/federated_sso.py:158-173 | Nothing stands in the way of a save if and only if it was reviewed so; the revision shows protocol, visible settings, whether it is enabled, and the rules of exactly the managed mappers. |
| FederatedSso.FederatedSso.StageProvider | dashboard/apps/api/federated_sso.py:182-194 | The loop removes exactly the managed mappers of a disabled provider. |
| FederatedSso.FederatedSso.Fill | dashboard/apps/api/federated_sso.py:195-201 | The provider is enabled only with all its mappers. |
| FederatedSso.FederatedSso.Delete | dashboard/apps/api/federated_sso.py:214-225 | Only a managed provider that was reviewed as it is is deleted, and nothing else changes; if no call fails, it is. |
| FederatedSso.FederatedSso.EnforceEntitlement | dashboard/apps/api/federated_sso.py:227-243 | Exactly the enabled providers are switched off, counted, and otherwise unchanged. |
| FederatedSso.NoneStaysEnabled | dashboard/apps/api/federated_sso.py:227-243 | When it finishes without entitlement, no provider is enabled and none lost its mappers. |
| JsonPointer.EscapeRoundTrip | dashboard/apps/api/migrate_frontend.py:22-23 | Escaping by two replacements is undone by reading the escapes of section 4 of RFC 6901, for every token. |
| JsonPointer.ParseRender | dashboard/apps/api/migrate_frontend.py:22-23 | A pointer of any tokens parses to exactly those tokens. |
| JsonPointer.IndexRoundTrip | dashboard/apps/api/migrate_frontend.py:39-48 | A decimal array index parses to itself. |
| MigrationPatch.GeneratePatch | dashboard/apps/api/migrate_frontend.py:26-63 | A patch is generated if and only if the Deployment is the dashboard's and its first container called web is the new one; applying it leaves exactly the legacy containers out, the legacy volumes that nothing mounts which stays, the legacy names of the reload annotation and the old revision; it starts with a test of the resource version, and is empty if and only if there is nothing to change. |
| MigrationPatch.RemoveItems | dashboard/apps/api/migrate_frontend.py:39-48 | The descending loop yields the removals of exactly the items that go. |
| MigrationPatch.RemovingEqualsFiltering | dashboard/apps/api/migrate_frontend.py:39-48 | Removing by those indices, one after the other, is filtering. |
| MigrationPatch.PatchEqualsFilter | dashboard/apps/api/migrate_frontend.py:26-63 | Applying the patch by sections 4.2, 4.3 and 4.6 of RFC 6902 gives exactly the filtered Deployment. |
| MigrationPatch.VolumesGoExactly | dashboard/apps/api/migrate_frontend.py:35-48 | A volume is left out if and only if it is a legacy emptyDir or ConfigMap volume that no init container and no container that stays mounts. |
| MigrationPatch.MountsKeepTheirVolumes | dashboard/apps/api/migrate_frontend.py:35-48 | So every mount that remains and had its volume has it still. |
| MigrationPatch.MigrationIsSeen | dashboard/apps/api/migrate_frontend.py:26-63 | Applying the generated patch succeeds, and leaves exactly what a reader of the Deployment would call legacy out, everything else in its order. |
| MigrationPatch.StalePatchIsRefused | dashboard/apps/api/migrate_frontend.py:61-62 | A patch made for another revision changes nothing. |
| MigrationPatch.SplitJoin | dashboard/apps/api/migrate_frontend.py:51-57 | Splitting a joined list of names gives the names back. |
| MigrationPatch.JoinSplit | dashboard/apps/api/migrate_frontend.py:51-57 | And joining the parts of any annotation gives it back. |
| MigrationPatch.MigrationIsIdempotent | dashboard/apps/api/migrate_frontend.py:26-63 | The patch computed for the result is empty. |
| GroupClosure.GroupIds | dashboard/apps/api/instance_access.py:78-96 | On any parent graph, cycles included, the worklist ends with the least set that holds the direct groups and all parents, or refuses for a reason: a malformed reachable group, more than 1000, or a lookup that fails. If none fails, it succeeds if and only if there is such a set of at most 1000 groups. |
| GroupClosure.ReachableIsLeast | dashboard/apps/api/instance_access.py:78-96 | What parent links lead to is closed under parents, and no closed set is smaller. |

## Left out

- MeshRevocation.RevocationIsBounded: assumes that all clocks agree; members whose clocks lag behind the owner's are not modelled.
- RegressionSafety.OneRunAtATime: assumes the conditions of `RegressionSafety.Orderly`, none of which can be spared (`RegressionExactness.OrderlyExactly`), and a strict order of creation; runs created in the same second may be listed in either order.
- RegressionRetention.AccountsAreRetained: assumes the same, and that one API process serialises its changes; several replicas are not modelled.
- RegressionApi.RegressionApi.CleanUp: the run and its family are one read; the code reads the run in a listing before that of its family (and, for a run it has just failed to set up, uses the answer to its creation, even if that run does not speak for its family).
- InviteToken.InviteRoundTrip: the JSON codec and the signature scheme are parameters with their laws as hypotheses.
- MeshRouting.RoutingIsLoopFree: what entries of others do with a request is not modelled; they end a chain.
- MeshService.MeshService.CreateMesh: origin, certificate pin and relay settings of a mesh are not part of the state.
- MeshService.MeshService.ExportModels: the uid and the local name that each export also carries are left out.
- MeshRevocation.RevokedPeerIsCutOff: where rosters of several owners circulate, another owner may still vouch for the peer.
- MeshListing.MembersNeverImportThemselves: an owner that enrols a member again under another name may be followed by rosters with either name.
- GroupClosure.GroupIds: the identity provider answers consistently during the walk; the groups whose lookup fails are a parameter.
- Mesh operations read their clock once, and `exportModels` is read in the same step as the transaction of `signedRoster` that follows; interleavings of threads inside an operation are not modelled.
- Bootstrap settings of a mesh, and the size limit of the policy file.
- The enrolment of a proof whose fields have the wrong types; a `verified` flag stands for the check of a signature.
- Names of exports in `ModelSync` are pairs of node and model; that the strings decompose in one way is `MeshNames.OneOwner`, and that the texts of identifiers do is `ModelIds.TextsAreDistinct`.
- The order in which `_reconcile` visits its deployments is arbitrary in the model.
- `prepare`'s budget for prompts and the list of request fields, `open`, and the latency counters of `ExportBridge`.
- Pagination of LiteLLM's key inventory, the format checks of stored keys and metadata, and key aliases.
- The syntactic checks on the specification of a run are one verdict; messages, progress and reports are reduced to what decides.
- The submission of a run (`enqueue`, `provision`) is a set of protocol steps without a class; lock and Lease inspection.
- A run whose non-destructive mode the schema has dropped starts as verified in the code, and as unknown in the model until the API turns it down; it is never ready, so nothing depends on it.
- The Pod specification, private preflight logs, registration and Gateway discovery.
- Several mapping summaries that are equal count once in the revision of a provider; lookups and metadata validation are parameters.
- White space beyond Latin-1 in the reload annotation.
- `can_use`, `redact_hidden` and the HTTP servers, command lines and user interfaces.
