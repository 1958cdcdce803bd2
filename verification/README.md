# PocketID operator: a verified model of its reconcile protocol

The operator keeps a PocketID server in line with custom resources. This project models its five
controllers (OIDC clients, users, user groups, instances, annotated HTTPRoutes) and proves what holds
over all their runs: whatever calls fail, before or after taking effect, wherever the process dies,
and whatever others do in between.

## How it is modelled

A controller is a *machine*: a world (the stored custom resource with its version, finalizer,
deletion mark and status; the objects at the server; Secrets, policies, tokens; a log of requests) and
the place in the code where the current run stands. One step is one API call. A call ends in one of
three ways: `Ok`, `Lost` (failed without effect) or `Late` (took effect, reported as failed). Between
any two calls the process may die and anyone else may act. `Run` is any number of reconciles of one
resource, interleaved with anything that the others may do (`Rely`); the theorems are about every `Run`.

The user, user group and OIDC client controllers share their outer protocol (`Lifecycle`, with its
invariants in `Invariants`): read, gate, finalizer, deletion, status write. Each adds its own steps
(`UserGroup`, `User`, `OIDCClient`); the instance controller has its own machine (`Installation`).

The code itself is imperative, and so are the `Controller` classes: they change the resource in memory
and the world step by step, wait for each answer with `Await`, and each `Reconcile` is proved to do
exactly what the machine does under the same script of answers, interruptions and crashes (`Play`). So
every theorem about the machine is one about the code's own form.

| File | What is in it |
|---|---|
| `Kube`, `Conditions`, `Basics`, `Strings` | the cluster's API server, condition lists, shared vocabulary, string functions |
| `Lifecycle`, `Invariants`, `Reference` | the shared protocol, what every step of it keeps, and the gate in front of it |
| `Failures`, `Reasons` | what a failed call does to its run, and what the reader of the status is told, for every controller |
| `UserGroup` | user groups: machine, safety, recovery, fixpoint, deletion, code |
| `User`, `UserOnboarding`, `UserRecovery`, `UserFetches`, `UserController`, `Membership` | users |
| `OIDCClient`, `OIDCPassage`, `OIDCCredentials`, `OIDCRecovery`, `OIDCLeftovers`, `OIDCPolicies`, `OIDCEnvoy`, `OIDCMishaps`, `OIDCController`, `SecurityPolicy` | OIDC clients |
| `Fleet`, `Fleets` | any number of resources of one kind at one server |
| `Roaming`, `Roamers` | one resource whose instance reference changes, at several servers |
| `GroupRefs`, `EqualStrings` | group resolution with its watch, comparison of lists up to order |
| `Installation`, `InstallationRecovery`, `InstallationController` | instances |
| `HTTPRoute`, `RouteController` | annotated routes |

## What is assumed

- Reads are fresh. A list call returns every object, with the fields that are compared. Create and
  update store the payload, an update of a user's profile leaves its memberships alone, and a client
  that has just been made has no secret yet.
- A failed call does not take effect later than the moment of its failure. Calls made for a run that
  has died do not happen.
- One reconcile of a resource is in flight at a time. Different resources of one kind interleave
  freely; that each of them may rely on the others is proved (`Fleet.AsIfAlone`), for sheltered
  resources with different names whose Secrets are different.
- The server does not give out an id that a resource has on record, and nobody else makes an object of
  such an id once its object is gone. For OIDC clients the spec can ask for an id, so this is a
  demand on those who write specs.
- A machine's world shows one server, that of the instance its runs work with, and specs carry no
  instance reference: it is assumed that no edit of the reference takes a run to another server while
  an id is on record. Nothing in the operator enforces this, and the HTTPRoute controller itself
  overwrites the reference. `Roaming` and `Roamers` put all servers side by side: under this condition
  safety holds at each of them, and without it the accounts are lost.
- The natural key (user name, group name, client name) does not change and belongs to one resource;
  nobody else creates an object under it at the server. There may be one such object at the start.
- Status and finalizer of a resource are written by its own controller only. Others edit specs, mark
  resources for deletion, remove unguarded ones and create them afresh.
- What the controller writes besides (`own`: credentials and onboarding Secrets, the policy, and at the
  server the client's current secret) is written by nobody else; in particular nobody else has the
  server generate a client secret. Once a resource has no finalizer all of this may be garbage
  collected, at any later time or never.
- `sheltered` (nobody else deletes or renames the object of our name), `tidy` (what a resource leaves
  behind is collected before another of its name is created) and `tolerant` (the server answers a
  delete of a missing object with success) are properties of a world that a theorem names where it
  needs them.

## What the code does not do

Facts of the code that one might not expect, with the theorems that show them.

- With Envoy enabled, a client that was created but not recorded is blocked until its spec is edited, it
  is deleted, or somebody takes the client away at the server: adopting it by
  name does not tell the policy step its id. The same goes for a Secret that was filled but not
  recorded. One crash, after the create or after the Secret's write, is enough
  (`OIDCMishaps.IdBlockRun`, `OIDCMishaps.SecretBlockRun`, `OIDCEnvoy.NeverUnblocked`).
  `OIDCRecovery.Recovery` gives the exact condition under which a reconcile succeeds.
- With Envoy off only a policy on record is removed. One whose write was not recorded, or whose read
  failed once (the record goes even then), stays over all later runs, and they report success
  (`OIDCPolicies.FailedReadForgets`, `OIDCPolicies.CrashForgets`, `OIDCPolicies.LeakStays`).
- One failed read of a group reference takes a user out of that group, in a run that reports success
  (`UserFetches.FailedReadDrops`); the next undisturbed run puts it right.
- If the instance reference is edited after an id was recorded, deleting the resource deletes at the
  wrong server: the resource may go while its object stays, live and unguarded, where it was made
  (`Roamers.OrphanRun`), or may not go although its object exists (`Roamers.DeletionAway`).
- A Secret that holds a client secret is left alone, whichever client it belongs to. If one is left over
  from an earlier resource of the name, the new resource becomes ready beside a Secret that names a
  client long gone, without any failed call or crash (`OIDCLeftovers.LeftoverRun`), and stays so
  (`OIDCLeftovers.VerdictStays`). `OIDCLeftovers.SecretAfter` gives the exact condition.
- A delete that took effect but was reported as failed, or after which the process died before it could
  remove the finalizer (`Invariants.DropSticks`, `OIDCMishaps.StuckRun`), leaves, at a server that answers 404 to the next
  delete, a resource that no later run can let go (`UserGroup.DeletionStuck` and its two siblings). Safety
  does not depend on this; `Deletion` gives the exact condition for progress.
- A recorded object that somebody deletes at the server is never made again: every undisturbed
  reconcile fails (the other half of each `Recovery`).
- A recorded user's profile is not compared, so later edits of it do not reach the server
  (`UserRecovery.Recovery`).
- The policy's issuer is the application URL without trailing slashes, the one in the credentials
  Secret is the URL as it stands (`SecurityPolicy.IssuerAgreement`).
- A success status is written over the resource as it is by then. "As the spec asks" therefore means
  the spec that the run has read, and an undisturbed run is one in which the two agree.

## Model

| member | source | states |
|---|---|---|
| Conditions.SetFind | internal/controller/status.go:16-24 | after a condition is set, that type reads as set and every other type as before |
| Conditions.SetUnique | internal/controller/status.go:16-24 | setting a condition keeps one condition per type and invents none |
| Conditions.RemoveFind | internal/controller/pocketidinstance_controller.go:373-374 | removing a type leaves every other type as it was |
| Conditions.ConditionList.SetStatusCondition | internal/controller/status.go:16-24 | the walk over the slice in place is the set operation on the list |
| Conditions.ConditionList.SetSynced | internal/controller/status.go:8-10 | Ready becomes true with reason Synced |
| Conditions.ConditionList.SetError | internal/controller/status.go:12-14 | Ready becomes false with the failing step as reason |
| Conditions.ConditionList.RemoveStatusCondition | internal/controller/pocketidinstance_controller.go:373-374 | the filter keeps every other condition, in order |
| Reference.ValidateExact | internal/controller/reference_validation.go:17-72 | an instance may be referred to if and only if it is in the same namespace or its owner has opened it; undecided only if that rests on labels that could not be read |
| Reference.GateExact | internal/controller/reference_validation.go:17-93 | a run passes the gate if and only if the instance it names, without a namespace the one in its own, exists, is at home or opened to it, and has an API key; it then works with that very instance, and a refusal names the check that failed |
| Reference.GateRuns | internal/controller/reference_validation.go:17-93 | at its gate a machine goes on if and only if those conditions hold and the reads succeed, and otherwise reports failure, and why, with nothing sent |
| Failures.GroupSpoilt | internal/controller/pocketidusergroup_controller.go:49-189 | a run of which any call fails never reports success, whatever happens before and after that call |
| Failures.UserSpoilt | internal/controller/pocketiduser_controller.go:52-211 | the same for users, but for reads of group references and the three onboarding calls |
| Failures.UserGoesOn | internal/controller/pocketiduser_controller.go:256-266 | after such a failure the reference is passed over, the flags stay as they were, and an unreadable onboarding Secret counts as absent |
| Failures.ClientSpoilt | internal/controller/pocketidoidcclient_controller.go:42-325 | the same for OIDC clients, but for the read of a policy that is to be removed |
| Failures.InstallationSpoilt | internal/controller/pocketidinstance_controller.go:61-405 | the same for instances, but for the read of the StatefulSet |
| Failures.LeftAlone | internal/controller/pocketidusergroup_controller.go:49-94 | a resource that is gone, or being deleted and no longer guarded, is left alone, and that is a success |
| Reasons.SharedReason | internal/controller/pocketidusergroup_controller.go:58-86 | a refusal at the gate and a failed delete are reported, each with its reason |
| Reasons.GroupReason | internal/controller/pocketidusergroup_controller.go:103-153 | each failed call of the group's own steps is reported with its reason |
| Reasons.UserReason | internal/controller/pocketiduser_controller.go:87-94 | every failed user call is reported, a failed membership call told apart from the others |
| Reasons.ListReason | internal/controller/pocketidoidcclient_controller.go:191-213 | a failed group list is told apart from a first reference that names no group |
| Reasons.AdmitReason | internal/controller/pocketidoidcclient_controller.go:207-234 | the reason for each way in which a reference is refused |
| Reasons.LocateReason | internal/controller/pocketidoidcclient_controller.go:77-93 | a client that cannot be looked up is told apart from a policy step that refuses |
| Reasons.ClientReason | internal/controller/pocketidoidcclient_controller.go:134-189 | the same for a create or an update that fails |
| Reasons.LateReason | internal/controller/pocketidoidcclient_controller.go:86-115 | from the credentials on only the policy step reports failures; a failed credentials call ends its run without a report |
| Reasons.InstallationReason | internal/controller/pocketidinstance_controller.go:88-111 | the Degraded condition names the stage that failed |
| Invariants.ListDecides | internal/controller/pocketidusergroup_controller.go:112-124 | a complete list either shows the one object of our name, or there is none |
| Invariants.MakeKeeps | internal/controller/pocketidusergroup_controller.go:132-139 | a create keeps the invariant: finalizer in place, no second object of the name, whatever the outcome |
| Invariants.DropKeeps | internal/controller/pocketidusergroup_controller.go:79-85 | a delete keeps the invariant, and if it is reported as done the recorded object is gone |
| Invariants.UnfinalizeKeeps | internal/controller/pocketidusergroup_controller.go:87-91 | the finalizer goes only when no recorded object is left |
| Invariants.StatusKeeps | internal/controller/pocketidusergroup_controller.go:155-189 | either status writer keeps the invariant and never changes a recorded id, interleaved edits included |
| Invariants.SharedKeeps | internal/controller/pocketiduser_controller.go:52-137 | every step that the three controllers share keeps the invariant and what the run knows |
| Invariants.DropSticks | internal/controller/pocketidusergroup_controller.go:81-91 | a delete that took effect and was reported as failed, or was followed by a crash, leaves a deletion that is stuck where deleting a missing object is an error |
| Invariants.OutsideKeeps | internal/controller/pocketiduser_controller.go:52-121 | nothing that others may do breaks the invariant |
| Fleet.AsIfAlone | internal/controller/pocketidusergroup_controller.go:49-174 | every joint run of any number of machines at one server is, for each of them, one of its own runs |
| Fleets.GroupFleet | internal/controller/pocketidusergroup_controller.go:49-174 | user groups keep to what their neighbours rely on, so every joint run is a run of each group |
| Fleets.UserFleet | internal/controller/pocketiduser_controller.go:52-121 | the same for users |
| Fleets.ClientFleet | internal/controller/pocketidoidcclient_controller.go:42-116 | the same for OIDC clients |
| Fleets.GroupsTogether | internal/controller/pocketidusergroup_controller.go:49-189 | all groups of a fleet are safe at once, and no live group is on record with two resources |
| Fleets.UsersTogether | internal/controller/pocketiduser_controller.go:52-211 | the same for users |
| Fleets.ClientsTogether | internal/controller/pocketidoidcclient_controller.go:42-189 | the same for OIDC clients |
| Roaming.RoamSafe | internal/controller/reference_validation.go:75-93 | at all servers: while no reference takes a run elsewhere with an id on record, at most one object of the name at each, and every live object on record named and guarded by the stored resource |
| Roaming.MoveExact | internal/controller/reference_validation.go:75-93 | the move that takes a run elsewhere keeps those accounts if and only if the resource has no live object on record where it comes from |
| Roamers.GroupsRoam | internal/controller/pocketidusergroup_controller.go:49-174 | user groups, from a fresh start |
| Roamers.UsersRoam | internal/controller/pocketiduser_controller.go:52-137 | users, from a fresh start |
| Roamers.ClientsRoam | internal/controller/pocketidoidcclient_controller.go:42-132 | OIDC clients, from a fresh start |
| Roamers.DeletionAway | internal/controller/pocketidusergroup_controller.go:79-93 | exactly when the deletion of a resource that has come to refer to another instance finishes; its object stays either way |
| Roamers.OrphanRun | internal/controller/pocketidusergroup_controller.go:58-93 | a run without crash, failed call or refusal after which the resource is gone and its object is live, on record and unguarded |
| UserGroup.Safety | internal/controller/pocketidusergroup_controller.go:49-189 | over all runs: at most one group of the name, every create under the finalizer, a live recorded group is still named and guarded by the stored resource, Ready, Synced and the Ready condition agree, every payload sent is the spec's |
| UserGroup.WriteOnce | internal/controller/pocketidusergroup_controller.go:139-171 | a recorded group id never changes while the resource exists |
| UserGroup.Recovery | internal/controller/pocketidusergroup_controller.go:103-173 | an undisturbed reconcile succeeds if and only if nothing is recorded or the recorded group exists; the group then equals the spec, otherwise nothing is sent |
| UserGroup.RecoveryAfterAnyRun | internal/controller/pocketidusergroup_controller.go:103-173 | after any history of crashes and failed calls the next undisturbed reconcile succeeds |
| UserGroup.Fixpoint | internal/controller/pocketidusergroup_controller.go:132-171 | a second undisturbed reconcile sends no mutation and changes only the time of the last sync |
| UserGroup.Deletion | internal/controller/pocketidusergroup_controller.go:79-93 | exactly when an undisturbed deletion finishes, with the recorded group gone |
| UserGroup.DeletionStuck | internal/controller/pocketidusergroup_controller.go:81-85 | a deletion whose group the server has lost never finishes where deleting it again is an error |
| UserGroup.Controller.Reconcile | internal/controller/pocketidusergroup_controller.go:49-174 | the code does what the machine does, under every script of answers, interruptions and crashes |
| Lifecycle.FindEntry | internal/controller/pocketidusergroup_controller.go:118-123 | the search loop finds the first object of the name |
| UserGroup.Controller.UpdateErrorStatus | internal/controller/pocketidusergroup_controller.go:176-189 | the error writer is the machine's report step |
| User.Safety | internal/controller/pocketiduser_controller.go:52-211 | the same for users: create-once, finalizer, orphan accounting, coherent flags, and every profile sent is the spec's, an empty optional field being absent |
| User.WriteOnce | internal/controller/pocketiduser_controller.go:87-118 | a recorded user id never changes while the resource exists |
| User.CreatedRecords | internal/controller/pocketiduser_controller.go:87-118 | whatever others do meanwhile and whichever later step fails, the first status write of the same run that takes effect, reported so or not, records the id of the user just made |
| UserOnboarding.FlagsBacked | internal/controller/onboarding.go:23-92 | over all runs: mail implies link and time; a link flag implies that a link of this user was stored; every stored link is the login URL of a token issued to its user |
| UserOnboarding.OnboardedOnce | internal/controller/pocketiduser_controller.go:96-112 | over all runs: flags never go back, and after a recorded link no token is issued and no onboarding Secret is written |
| UserOnboarding.MailOnlyIfAsked | internal/controller/onboarding.go:51-59 | whatever happens in a run, it notes mail as sent only if its spec asks for mail, with a time and only if it was not noted before; otherwise its status writes leave mail and time as they were |
| UserOnboarding.SuccessJoins | internal/controller/pocketiduser_controller.go:96-112 | the success status sets a flag exactly if the resource, as re-read, has it or the run has raised it |
| UserOnboarding.WriteBacked | internal/controller/onboarding.go:69-92 | storing the link keeps both, whether the Secret existed and whether the write is reported or not |
| UserRecovery.Recovery | internal/controller/pocketiduser_controller.go:87-120 | an undisturbed reconcile succeeds if and only if nothing is recorded or the recorded user exists; memberships are then exactly the resolved references; a link that was due is in the Secret the spec names, as the login URL of an issued token, and mail is noted, with its time, exactly if it was before or the spec asks for it; the profile is the spec's if nothing was recorded |
| UserRecovery.RecoveryAfterAnyRun | internal/controller/pocketiduser_controller.go:87-120 | after any history the next undisturbed reconcile succeeds |
| UserRecovery.Fixpoint | internal/controller/pocketiduser_controller.go:87-118 | with the link recorded or turned off, a second reconcile sends no mutation and changes only the time of the last sync |
| UserRecovery.Deletion | internal/controller/pocketiduser_controller.go:123-137 | exactly when an undisturbed deletion finishes |
| UserRecovery.DeletionStuck | internal/controller/pocketiduser_controller.go:125-129 | a deletion whose user the server has lost never finishes where deleting it again is an error |
| UserFetches.GotExact | internal/controller/pocketiduser_controller.go:256-266 | the wanted groups are never ones that no reference names, and are all of those if and only if each could be read through some reference |
| UserFetches.MembershipExact | internal/controller/pocketiduser_controller.go:253-301 | whatever becomes of the reads of the references, the user's groups are those that could be read, if the other calls succeed |
| UserFetches.FailedReadDrops | internal/controller/pocketiduser_controller.go:259-262 | one failed read takes a settled user out of a group, in a run that reports success |
| UserController.Controller.Reconcile | internal/controller/pocketiduser_controller.go:52-121 | the code does what the machine does, under every script |
| UserController.Controller.ResolveOrCreateUser | internal/controller/pocketiduser_controller.go:139-196 | get by id, or adopt, create or update by name, as the machine does |
| UserController.Controller.SyncGroupMemberships | internal/controller/pocketiduser_controller.go:253-301 | skipping unresolved references, one request exactly when the sets differ |
| UserController.Controller.ReconcileOnboarding | internal/controller/onboarding.go:23-60 | token, link and flags as the machine takes them |
| UserController.Controller.StoreOneTimeAccessLink | internal/controller/onboarding.go:69-92 | create or overwrite, a failed read counting as absent |
| UserController.NeedsUserUpdate | internal/controller/pocketiduser_controller.go:214-250 | false exactly when the name and every profile field agree, absent fields included |
| Membership.Request | internal/controller/pocketiduser_controller.go:273-298 | a request if and only if the sets differ, naming each wanted group once, in whatever order the maps iterate |
| Membership.Plan | internal/controller/pocketiduser_controller.go:253-301 | the same from the lists: repetitions, unsynced groups and order make no difference |
| OIDCClient.Safety | internal/controller/pocketidoidcclient_controller.go:42-189 | the same for clients, and every create or update sent is restricted exactly when its spec lists groups, names one synced group for each, and carries the spec's flags and callback URLs |
| OIDCClient.WriteOnce | internal/controller/pocketidoidcclient_controller.go:95-111 | a recorded client id never changes while the resource exists |
| OIDCPassage.CreatedRecords | internal/controller/pocketidoidcclient_controller.go:82-113 | whatever others do meanwhile and whichever later step fails, the first status write of the same run that takes effect, reported so or not, records the id of the client just made |
| OIDCPassage.SentAsListed | internal/controller/pocketidoidcclient_controller.go:191-234 | in every create or update a run sends, group i is the one reference i names in the run's own list, synced and of the client's own instance |
| OIDCCredentials.CredentialCoherence | internal/controller/pocketidoidcclient_controller.go:253-310 | over all runs: a client secret found in the fixed Secret is the last one generated for the id beside it; in a sheltered and tidy world that id is the one client of our name and the secret its current one |
| OIDCCredentials.CredentialsStay | internal/controller/pocketidoidcclient_controller.go:280-282 | over all runs: a filled Secret is never written again while its resource exists |
| OIDCRecovery.Recovery | internal/controller/pocketidoidcclient_controller.go:77-115 | an undisturbed reconcile succeeds if and only if the references resolve, the client exists or can be made, and the policy step knows what it needs; the client is then field by field as the spec asks, lists up to order, and has the wanted id if it was made on the way; a Secret that was not filled holds id, current secret and URL; with Envoy on every field of the policy is as spec, route and client ask; with Envoy off the policy is gone if its name was on record and otherwise as it was |
| OIDCRecovery.NeedsUpdateExact | internal/controller/pocketidoidcclient_controller.go:331-353 | no update is sent exactly when name, flags, restriction, callback URLs and group ids are what spec and references ask, the lists up to order |
| OIDCRecovery.RecoveryAfterAnyRun | internal/controller/pocketidoidcclient_controller.go:77-115 | with Envoy off and resolvable references, after any history the next undisturbed reconcile succeeds |
| OIDCRecovery.Fixpoint | internal/controller/pocketidoidcclient_controller.go:42-116 | with or without Envoy, a second reconcile sends no mutation, leaves Secret and policy alone and changes only the time of the last sync |
| OIDCRecovery.PolicyDrive | internal/controller/securitypolicy.go:26-90 | exactly when the policy step succeeds undisturbed, the policy it leaves with Envoy on and off, and the name it notes |
| OIDCRecovery.Deletion | internal/controller/pocketidoidcclient_controller.go:118-132 | exactly when an undisturbed deletion finishes |
| OIDCRecovery.DeletionStuck | internal/controller/pocketidoidcclient_controller.go:120-124 | a deletion whose client the server has lost never finishes where deleting it again is an error |
| OIDCPolicies.PolicyAfter | internal/controller/securitypolicy.go:29-42 | a successful undisturbed reconcile with Envoy off leaves no policy if and only if there was none or its name was on record |
| OIDCPolicies.FailedReadForgets | internal/controller/securitypolicy.go:33-39 | a policy that could not be read is forgotten and left in place |
| OIDCPolicies.CrashForgets | internal/controller/securitypolicy.go:71-89 | a policy written in a run that dies before its report is on no record |
| OIDCPolicies.LeakStays | internal/controller/securitypolicy.go:29-42 | over all runs with Envoy off, a policy that is not on record is never removed |
| OIDCLeftovers.SecretAfter | internal/controller/pocketidoidcclient_controller.go:280-308 | after any history in a sheltered world, a successful undisturbed reconcile leaves a Secret for the live client if and only if it found the Secret without a client secret or right already |
| OIDCLeftovers.VerdictStays | internal/controller/pocketidoidcclient_controller.go:280-282 | over all runs in a sheltered world: while one guarded resource exists and is not being deleted, a filled Secret stays as right or as wrong as it is |
| OIDCLeftovers.LeftoverRun | internal/controller/pocketidoidcclient_controller.go:280-282 | a run without crash, failed call or refusal after which the resource is ready and its Secret names a client that is gone |
| OIDCEnvoy.NeverUnblocked | internal/controller/securitypolicy.go:44-49 | with Envoy on, an unrecorded client or an unrecorded filled Secret makes every later reconcile fail, until the spec is edited, the resource deleted or the client taken away |
| OIDCEnvoy.CrashBlocks | internal/controller/pocketidoidcclient_controller.go:148-174 | one crash after the create leads to such a state |
| OIDCEnvoy.SecretCrashBlocks | internal/controller/pocketidoidcclient_controller.go:280-308 | one crash after the write of the Secret leads to such a state |
| OIDCMishaps.IdBlockRun | internal/controller/pocketidoidcclient_controller.go:148-174 | from a fresh start, a run with one crash that is blocked by its id |
| OIDCMishaps.SecretBlockRun | internal/controller/pocketidoidcclient_controller.go:280-308 | from a fresh start, a run with one crash that is blocked by its Secret |
| OIDCMishaps.StuckRun | internal/controller/pocketidoidcclient_controller.go:118-132 | from a fresh start, a run with one delete reported as failed that can never finish its deletion |
| OIDCController.Controller.Reconcile | internal/controller/pocketidoidcclient_controller.go:42-116 | the code does what the machine does, under every script |
| OIDCController.Controller.ResolveAllowedUserGroups | internal/controller/pocketidoidcclient_controller.go:191-234 | one list, one instance lookup for each reference, first refusal wins |
| OIDCController.Controller.ResolveOrCreateClient | internal/controller/pocketidoidcclient_controller.go:134-189 | get by id, or adopt, create or update by name; only a create notes the id in memory |
| OIDCController.Controller.EnsureCredentialsSecret | internal/controller/pocketidoidcclient_controller.go:253-310 | the credentials step as the machine takes it |
| OIDCController.Controller.EnsureSecurityPolicy | internal/controller/securitypolicy.go:26-90 | the policy step as the machine takes it |
| OIDCController.Controller.UpdateErrorStatus | internal/controller/pocketidoidcclient_controller.go:312-325 | the error writer is the machine's report step, on the status as changed in memory |
| OIDCController.NeedsOIDCClientUpdate | internal/controller/pocketidoidcclient_controller.go:331-338 | false exactly when name, flags and restriction agree and callback URLs and group ids agree as multisets |
| SecurityPolicy.BuildExact | internal/controller/securitypolicy.go:92-151 | there is a policy exactly if the route has a hostname; it names client, route and Secret as given, both endpoints follow from the trimmed URL, and callback and logout paths have their defaults |
| SecurityPolicy.TrimRightSlashExact | internal/controller/securitypolicy.go:116 | all trailing slashes go and nothing else |
| SecurityPolicy.IssuerAgreement | internal/controller/securitypolicy.go:116-136 | the policy's issuer is the application URL if and only if that does not end in a slash |
| EqualStrings.EqualStrings | internal/controller/pocketidoidcclient_controller.go:355-371 | true exactly for equal multisets; the inputs are unchanged |
| EqualStrings.EqualUserGroupIDs | internal/controller/pocketidoidcclient_controller.go:340-353 | true exactly for equal multisets of ids |
| EqualStrings.SortedUnique | internal/controller/pocketidoidcclient_controller.go:363-369 | a sorted list is determined by its elements, so comparing sorted copies decides equality |
| GroupRefs.AdmitExact | internal/controller/pocketidoidcclient_controller.go:214-230 | a found group is admitted if and only if its instance exists, is the client's own, and the group has an id; each refusal has its reason, in this order |
| GroupRefs.ByNameExact | internal/controller/pocketidoidcclient_controller.go:201-205 | the map holds exactly the listed names, each with its last entry |
| GroupRefs.ResolveExact | internal/controller/pocketidoidcclient_controller.go:191-234 | there is a result if and only if every reference names a synced group of the client's own instance, and it is those groups in order; otherwise the refusal of the first bad reference |
| GroupRefs.ResolveAllowedUserGroups | internal/controller/pocketidoidcclient_controller.go:191-234 | the loops compute that resolution |
| GroupRefs.OidcClientsReferencingUserGroup | internal/controller/pocketidoidcclient_controller.go:373-395 | the mapper's loops compute the request list |
| GroupRefs.RequestsExact | internal/controller/pocketidoidcclient_controller.go:373-395 | exactly the clients of the namespace that name the group |
| GroupRefs.RequestsOnce | internal/controller/pocketidoidcclient_controller.go:386-392 | each of them once |
| GroupRefs.WatchComplete | internal/controller/pocketidoidcclient_controller.go:373-395 | if two cluster states differ in one group, every client whose resolution differs is requested |
| Installation.Safety | internal/controller/pocketidinstance_controller.go:199-253 | over all runs: administrators made are at most one more than the times the server lost all its users; a stored status is honest (unique conditions; ready means available, configured and not degraded); Initialized implies that the server had a user |
| Installation.NothingLost | internal/controller/pocketidinstance_controller.go:131-405 | over all runs: an initialized instance stays so through both status writers, and no generated key is replaced |
| Installation.InitializeKeeps | internal/controller/pocketidinstance_controller.go:199-253 | an administrator is made only after the users were seen to be gone |
| Installation.MergedHonest | internal/controller/pocketidinstance_controller.go:333-374 | after the merge of updateStatus, Available holds exactly if all replicas are ready and there is at least one, with the reason for either; Configured holds, Degraded is gone, Initialized is the run's own or stays |
| InstallationRecovery.Recovery | internal/controller/pocketidinstance_controller.go:79-115 | an undisturbed reconcile adds a missing finalizer and no more; with it, it succeeds if and only if it need not initialize the server or can reach it; exactly when it makes the administrator, as an administrator; missing keys are generated and others stay; the status is ready exactly if all wanted replicas, at least one, are ready, in a StatefulSet that was made if it was missing |
| InstallationRecovery.Fixpoint | internal/controller/pocketidinstance_controller.go:318-384 | a further undisturbed reconcile changes nothing but the version |
| InstallationRecovery.Deletion | internal/controller/pocketidinstance_controller.go:117-129 | an undisturbed reconcile of an instance marked for deletion removes the finalizer, and so the instance, and touches neither the server nor the Secrets; one that is gone is left alone |
| InstallationController.Controller.Reconcile | internal/controller/pocketidinstance_controller.go:61-115 | the code does what the machine does, under every script |
| InstallationController.Controller.ReconcileSecrets | internal/controller/pocketidinstance_controller.go:131-197 | each generated Secret is created if absent and otherwise left alone |
| InstallationController.Controller.InitializeInstance | internal/controller/pocketidinstance_controller.go:199-253 | the initializer as the machine takes it |
| InstallationController.Controller.UpdateStatus | internal/controller/pocketidinstance_controller.go:318-384 | the ready writer as the machine takes it |
| InstallationController.Controller.Merge | internal/controller/pocketidinstance_controller.go:333-374 | the changes made one by one to the re-read instance are the merged status |
| InstallationController.Controller.SetDegradedCondition | internal/controller/pocketidinstance_controller.go:386-405 | the degraded writer as the machine takes it |
| Strings.TrimExact | internal/controller/httproute_controller.go:213 | trimming takes all white space off both ends and nothing else |
| Strings.SplitJoin | internal/controller/httproute_controller.go:209 | splitting undoes joining for parts without the separator |
| Strings.JoinSplit | internal/controller/httproute_controller.go:209 | joining undoes splitting, for every string |
| HTTPRoute.ParseAllowedGroupRefs | internal/controller/httproute_controller.go:204-224 | the loop with its seen-set computes the list of names |
| HTTPRoute.NamesExact | internal/controller/httproute_controller.go:204-224 | exactly the non-empty trimmed parts, each once |
| HTTPRoute.NamesOrdered | internal/controller/httproute_controller.go:204-224 | in the order of their first occurrence |
| HTTPRoute.ParseRoundTrip | internal/controller/httproute_controller.go:204-224 | joining the result with commas and parsing again gives the same list, for every string |
| HTTPRoute.ParseJoin | internal/controller/httproute_controller.go:204-224 | every list of trimmed, distinct, comma-free names can be written as an annotation |
| HTTPRoute.PathsExact | internal/controller/httproute_controller.go:123-129 | the paths are the comma-separated parts of the annotation, trimmed, in order |
| HTTPRoute.RedirectUris | internal/controller/httproute_controller.go:121-136 | the nested loops compute the URI list |
| HTTPRoute.UrisAt | internal/controller/httproute_controller.go:121-136 | the list is the host-major product of hosts and trimmed paths |
| HTTPRoute.UrisExact | internal/controller/httproute_controller.go:121-136 | a URI is listed if and only if it is made of a listed host and a listed path |
| HTTPRoute.RegisteredExactly | internal/controller/securitypolicy.go:99-114 | for slash-free hosts and any paths: exactly when the policy's redirect URL is registered (exact match, section 3.1.2.1 of OpenID Connect Core 1.0) |
| HTTPRoute.RedirectAgreement | internal/controller/httproute_controller.go:121-136 | for paths that start with a slash: exactly when the annotation is empty or lists /oauth2/callback |
| RouteController.ChooseExact | internal/controller/httproute_controller.go:68-91 | writing the chosen reference back gives the annotation; without one, only a single instance is chosen, and none at all means waiting |
| RouteController.Controller.Reconcile | internal/controller/httproute_controller.go:54-202 | nothing is written unless every check has passed, and then the one client is created or its managed fields overwritten; success is reported exactly for that write, for a route that is gone, or for a refusal that leaves nothing to retry |
| RouteController.IntentExact | internal/controller/httproute_controller.go:54-113 | exactly when a run gets as far as writing, and for which instance |
| RouteController.DesiredExact | internal/controller/httproute_controller.go:115-172 | the client that a route asks for, field by field, defaults included |
| RouteController.WrittenExact | internal/controller/httproute_controller.go:178-199 | after a run that writes, each managed field is what the route asks for, each unmanaged field of an existing client stays, and no other client is touched |
| RouteController.Controller.DesiredClient | internal/controller/httproute_controller.go:115-172 | the desired client, or none without hostnames |
| RouteController.RunsExact | internal/controller/httproute_controller.go:178-199 | after any number of runs, failed or not, the clients are what the last run that wrote makes of the original ones; other clients and unmanaged fields stay |
| RouteController.PolicyRegistered | internal/controller/httproute_controller.go:121-199 | end to end: the policy generated from the written client redirects to a registered URL exactly when the annotation is empty or lists /oauth2/callback |

## Left out

- HTTP and JSON transport, pagination and the API endpoints (internal/pocketid): replaced by the server's effect and the three outcomes of a call.
- Informer caches, owner references and garbage collection: reads are fresh, and what is collected may vanish once its owner has no finalizer.
- Instance lookup, namespace check and API key lookup are one step of a run, as they all precede the first remote call; matching of namespace labels by a selector is one given answer.
- Messages, transition times and requeue delays; whether a reconcile reports success is kept.
- A policy is written by one step that creates or overwrites it; a conflict of that write is a lost call.
- ConfigMap, Service and StatefulSet contents: each is one step of the instance controller that succeeds or fails; of the StatefulSet the replica counts are kept.
- The development override of the API URL from the environment.
- Generated code, manifests and process start-up.
- UserRecovery.Recovery: says nothing of the profile when an id is recorded, because the code does not compare it then.
- OIDCClient.Safety: says of a payload's groups that they are synced and as many as the references; which groups they are is OIDCPassage.SentAsListed, in terms of the list the run has read. A group that changes afterwards is left to the watch.
- OIDCCredentials.CredentialCoherence: speaks of one fixed Secret and, for the current secret of the one client, of a world in which nobody else deletes or renames that client and no Secret is left over from an earlier resource; without the latter it is false, by OIDCLeftovers.LeftoverRun.
- OIDCRecovery.RecoveryAfterAnyRun: Envoy is off, because with it on recovery can fail for good, as OIDCEnvoy.NeverUnblocked states.
- Fleets.ClientFleet: resources of one kind; a client's user groups and instances are read, and may change in any way.
- Collection of what a resource leaves behind is all or nothing.
- Roaming.RoamSafe: does not speak of credentials; what the server holds for a client is kept by id, and ids of different servers are not told apart there.
- RouteController.Controller.Reconcile: takes all its answers at once, as nothing it holds in memory outlives a run and it writes one object in one call.
