# The Rancher MCP server, modelled and proved

The Rancher MCP server lets an agent plan and execute changes in Kubernetes clusters. A
change passes a confirmation gate: `planChange` issues a single-use token bound to one
exact operation, `executeChange` must present it, the user confirms directly, and only
then does the cluster change. This project models that protocol and the server's other
stateful or intricate parts, and proves what they promise.

| files | what they model |
|---|---|
| `Operations`, `Confirm` | operations, tokens, and the gate as a class with its in-place sweep |
| `GateHistory` | whole runs of the gate against one that never forgets a nonce |
| `GateInterleaving` | concurrent callers, with the expiry check and the locked section as separate steps |
| `Dispatch`, `ChangeHandlers`, `BuiltObjects`, `BuiltDocuments`, `HandlerMethods` | the dispatch tables, the plan and execute handlers of all ten operations, and the objects the create tools build, path by path |
| `ChangeServer`, `PlannedChange`, `ChangeProtocol`, `ChangeRace` | the server as a state machine over the handlers' interleaved steps, with its history: what every run keeps, what a granted change submits, and what runs can be continued to |
| `ConcreteServer`, `ClusterDrift` | the same server with its kinds resolved, its objects built and its clusters looked up as the client does |
| `ScaleNodePool`, `ExecPod` | the int32 arithmetic of the scale patch; the exec payload and the capped output buffer |
| `Keepalive` | the per-session counters, watchdogs and throttle of open elicitations |
| `ClusterLookup`, `Resolve`, `ResolveRoutes`, `DiscoveryCache` | name and kind resolution with their caches |
| `Pagination`, `ToolList`, `ToolListWrapping`, `ToolListReading`, `ImageIndex`, `ImageUses`, `Masking`, `Quantity`, `SortedJson` | paging, greedy line wrapping, the image index, JSON masking and sorting |
| `Sorting`, `Search`, `Text`, `JsonValue`, `Wrappers` | what the others share |

Code that changes state step by step is a class or a method with loops, proved equal to a
specification function; the promises are lemmas about those functions and about runs
built from them. Main results, hardest first:

- Over every run of the server, a change that was not auto-written is justified by an
  earlier plan of the identical operation, by that plan's token, presented in time and
  accepted for this call, and by the user's approval of it (`EveryChangeIsJustified`).
- Such a change submits everything its operation binds as it was planned, field by field in
  the plan's own parameters, whatever happened to the clusters in between
  (`GrantedChangeIsThePlannedOne`, `GrantedScaleAnswersItsPlan`). The operation does not bind
  the cluster that the name resolves to when the request is sent, the resource name of a
  generic create, the resource type of a patch or deletion beyond its kind, the container of
  a command, where the arguments of a command end, or the rest of a moved namespace. The
  change is the planned one, on the planned cluster, exactly when these are the same
  (`OperationFixesTheRest`), and every choice of them that a snapshot and a lookup can give
  can be made after every run (`EveryDescribedChangeCanFollow`).
- What is left open is delimited exactly. A granted generic creation always has the group
  and version of its manifest (`GrantedCreationHasItsVersion`). An apiVersion fixes group and
  version of a patch or deletion, and a built-in kind without one has its table entry
  (`TypeFollowsCall`); a call finds the planned type if and only if it resolves to the planned
  group and version and the snapshot has the planned name there (`ExecutedTypeIff`). A change
  lands on the cluster its plan found, in every run, if and only if it moves a namespace or
  names its cluster by the ID (`LandingIsFixedIff`). A command is always run as planned
  exactly for plans of one argument without NUL bytes (`CommandIsFixedIff`). The object of a
  built creation is the planned one exactly when the parameters listed in `SameParts` are
  (`BuiltCreationBinds`), and `BuiltDocuments` says what it holds at every path.
- No two changes share a call, an acceptance or an approval; nor a plan, unless the later
  one took the token after its expiry (`GrantsAreDistinct`), which can happen although the
  first took it in time (`OnePlanTwoChanges`).
- Each token lives for its lifetime: first used for its own operation it is accepted up to
  the second that the time of issue plus the lifetime falls into, and has expired after it,
  in sequential runs, in interleaved ones and in runs of the server
  (`TokenLivesItsLifetime`).
- The sweeping gate answers every call of every sequential run as a gate that never
  forgets does, errors included, and its answer is a function of the history alone.
- Under concurrency a token is accepted at most once by its expiry. A waiting caller is
  accepted with a used token exactly when some acceptance since its use, of any token, came
  after its expiry (`SecondAcceptance`); a run whose first use is in time is given.
- The caches of the cluster lookup are invisible when display names are unambiguous, and
  only then; and only then does a name keep its answer while the clusters stay the same
  (`StableIffUnambiguous`). The three resolution routes agree, and each finds exactly the
  first main resource of the kind in the list that decides (`FoundIff`).
- Greedy wrapping is optimal, pagination visits every resource once, and masking
  identifies exactly the documents that differ only in hidden entries.

Assumptions. The MAC is ideal: a token verifies exactly when the gate issued its body. The
operations that tokens name are an enumeration that stands for their distinct strings.
SHA-256 is injective and canonical JSON is injective on the payload shapes used. Nonces
are fresh and the clock does not run backwards. Reads of the API and answers of the user
are arbitrary inputs at every step.

Where code and documentation disagree, the model follows the code:

- The masking comment says that every numeric leaf under a metrics key is masked. Numbers
  that are direct elements of an array are not; `EveryNumericLeafMaskedIff` says exactly
  when the promise holds.
- `cappedBuffer` records truncation. An empty write to a full buffer sets the mark too,
  although nothing is dropped; `TruncatedMeansDropped` gives the exact condition.
- Tokens are called single-use. No token is accepted twice by its expiry, but one accepted
  in time can be accepted again after it, by a caller that passed the expiry check before;
  `SecondAcceptance` gives the exact condition and `UsedInTimeAndAgain` a run.
- The token is said to bind the exact operation. It binds the name of the cluster that the
  call gave; the ID is looked up again when the request is sent.
  `LandingIsFixedIff` says exactly when that is the planned cluster, and `ChangeCanDrift`
  gives lookups, and a run, where it is not. Only moved namespaces bind the ID.
- A deletion is said to be bound by namespace, kind and name. The token does not bind the
  apiVersion, which decides between types of one kind; `OtherVersionOtherType` gives a run.
- The lookup comment presents the caches as an optimisation. They can change answers when
  a display name is also another cluster's name or ID, and only then.
- Scaling computes in int32 and refuses every wrap-around of the pool arithmetic, but a
  requested amount outside int32 is truncated first, before the request is checked;
  `TrueSizeIffAmountFits` says exactly when a patch answers a well-formed request with the
  size it asks for, and `TruncationHidesAmounts` gives requests where it does not.
- The comments say that the token binds the exact command. It binds the arguments joined
  by NUL bytes; `PayloadDeterminesCommand` says exactly when that fixes the command.

## Model

| member | source | states |
|---|---|---|
| Operations.MatchesOnlyItsOperation | pkg/confirm/confirm.go:153-156 | a token body matches the operation it was issued for and no other |
| Confirm.Gate.IssueToken | pkg/confirm/confirm.go:104-123 | the new token binds the operation, the nonce and the expiry, and joins the issued ones |
| Confirm.Gate.RequireToken | pkg/confirm/confirm.go:128-171 | the verdict, which error included, and the nonces remembered afterwards, for any two clock readings |
| Confirm.Gate.SweepExpired | pkg/confirm/confirm.go:163-169 | deleting while ranging leaves exactly the nonces whose expiry is not past |
| Confirm.Gate.Check | pkg/confirm/confirm.go:221-241 | without bypass the user decides only after the token was accepted and consumed; with it the memory is untouched |
| Confirm.ApprovalIsExplicit | pkg/confirm/confirm.go:202-215 | corollary of the decision: approval if and only if the user accepted and typed the exact name, or chose approve where no name is asked for; unsupported if and only if the client could not ask |
| Confirm.UnixIsTheSecond | pkg/confirm/confirm.go:112 | a clock reading in nanoseconds falls into the second it is rounded to |
| GateHistory.SweepingRefinesRemembering | pkg/confirm/confirm.go:157-170 | on every run the sweeping gate and one that never forgets give the same answer to every call |
| GateHistory.Simulation | pkg/confirm/confirm.go:157-170 | the invariant behind it: the gate holds what the unforgetting one holds, cut at the last sweep |
| GateHistory.VerdictFromHistory | pkg/confirm/confirm.go:128-171 | every verdict is the one the history calls for: issued, unexpired, this operation, never accepted |
| GateHistory.TokenLivesItsLifetime | pkg/confirm/confirm.go:104-152 | in every run a token that one call was handed, first used by a later call for its operation, has expired if and only if the second of the check is past that of the issue plus the lifetime, and is otherwise accepted |
| GateHistory.SingleUse | pkg/confirm/confirm.go:159-162 | no token is accepted by two calls of a run |
| GateHistory.RemembersExactlyTheLive | pkg/confirm/confirm.go:162-169 | right after an acceptance the whole memory is the accepted tokens not yet expired, each with its expiry |
| GateHistory.FullMemoryIsHistory | pkg/confirm/confirm.go:159-162 | the unforgetting memory is exactly the accepted tokens with their expiries |
| GateHistory.ConsumedIsHistory | pkg/confirm/confirm.go:159-162 | a token is in the unforgetting memory if and only if the run accepted it |
| GateHistory.IssuedIsHistory | pkg/confirm/confirm.go:104-123 | the verifiable tokens are exactly those issued earlier in the run |
| GateInterleaving.RunKeeps | pkg/confirm/confirm.go:150-170 | every interleaving of checks, locked sections, issues and clock steps keeps the invariant: memory equals recent history |
| GateInterleaving.TokenLivesItsLifetime | pkg/confirm/confirm.go:104-152 | in every interleaving a caller with an issued token passes the checks if and only if the second of the issue plus the lifetime is not past |
| GateInterleaving.LockedVerdict | pkg/confirm/confirm.go:157-169 | the locked section refuses a token if and only if it was accepted and no acceptance since came after its expiry |
| GateInterleaving.AtMostOneAcceptanceInTime | pkg/confirm/confirm.go:150-170 | for any number of callers, of two acceptances of one token the later ran after its expiry |
| GateInterleaving.SecondAcceptance | pkg/confirm/confirm.go:150-170 | a used token is accepted again if and only if some acceptance since its use came after its expiry |
| GateInterleaving.UsedInTimeAndAgain | pkg/confirm/confirm.go:150-170 | a run where a token is accepted in time, swept by another token's late acceptance, and accepted again |
| Dispatch.Validate | pkg/toolsets/dispatch/validate.go:11-36 | the first unknown required name, else all missing ones in order, else valid |
| Dispatch.ValidMeansSet | pkg/toolsets/dispatch/validate.go:22-35 | validation passes if and only if every required field is known and set |
| Dispatch.RefusalNames | pkg/toolsets/dispatch/validate.go:22-35 | a refused request is told the first unknown name, or else name by name and in order the required fields not set |
| Dispatch.MergeMaps | pkg/toolsets/dispatch/case.go:24-36 | the loop over maps in any key order returns the union or panics |
| Dispatch.MergeIffDisjoint | pkg/toolsets/dispatch/case.go:24-36 | the merge succeeds if and only if no key appears in two maps |
| Dispatch.MergeKeepsCases | pkg/toolsets/dispatch/case.go:24-36 | a merged table holds every case of every map, unshadowed, and no others |
| Dispatch.LookupIff | pkg/toolsets/core/merged_change_cases.go:123-159 | a request reaches each of the ten operations if and only if it has its name and every field it needs |
| Dispatch.TableMerges | pkg/toolsets/core/merged_change_cases.go:123-159 | closed instance: both levels of that table merge without a repeated key |
| Dispatch.DispatchedDeleteIsNamed | pkg/toolsets/core/merged_change_cases.go:142-147 | a dispatched deletion has a non-empty cluster, kind and name |
| ChangeHandlers.PreparedDescribes | pkg/toolsets/core/delete_resource.go:25-53 | every handler submits what its operation binds, to the cluster it named or, for a move, found; a creation has its manifest's group and version, a patch or deletion a type of its kind; deletions and commands are never bypassed; a deletion asks for its name |
| ChangeHandlers.SameOperationIff | pkg/toolsets/core/delete_resource.go:30-32 | an execute call prepares the planned operation if and only if it is of the same tool and agrees on the bound parameters and reads |
| ChangeHandlers.PlanAndExecuteAgree | pkg/toolsets/provisioning/scale_node_pool_plan.go:33-41 | corollary: the same parameters and reads give the same operation |
| ChangeHandlers.OperationFixesTheRest | pkg/confirm/confirm.go:36-44 | two changes of one operation are equal and land on one cluster if and only if the parts it does not bind, the landing included, are equal |
| ChangeHandlers.DescribedIsPrepared | pkg/toolsets/core/exec_pod.go:86-115 | every change a planned operation describes is prepared by an execute call that differs from the plan at most in apiVersion, snapshot, process or the rest of a namespace |
| BuiltObjects.SameBuiltIff | pkg/toolsets/provisioning/create_k3k_cluster.go:51-136 | two calls of a create tool build one object if and only if they agree on exactly the listed parameters: all of a project's, a K3k cluster's with counts below one alike, an imported cluster's with its effective setting, a custom cluster's with its resolved version |
| BuiltDocuments.ProjectDocument | pkg/toolsets/core/projects/create_project.go:90-135 | what a project's document holds at every path: each quota absent if zero and else that many milli-CPUs or mebibytes, texts absent if empty, and nothing else |
| BuiltDocuments.ImportedDocument | pkg/toolsets/provisioning/create_imported_cluster.go:93-128 | the same for an imported cluster, built if and only if it has a name and an accepted setting |
| BuiltDocuments.CustomDocument | pkg/toolsets/provisioning/create_custom_cluster.go:96-149 | the same for a custom cluster, built if and only if name, distribution, network plug-in and release are accepted |
| BuiltDocuments.K3kDocument | pkg/toolsets/provisioning/create_k3k_cluster.go:51-136 | the same for a K3k cluster: what is empty, off or not positive is absent |
| BuiltDocuments.DecimalDenotes | pkg/toolsets/core/projects/create_project.go:118-130 | a printed amount is the numeral of its number in base ten, sign included |
| BuiltObjects.DecimalInjective | pkg/toolsets/core/projects/create_project.go:118-130 | different amounts print differently, the sign included |
| ChangeServer.RunKeeps | pkg/toolsets/merged/tools.go:94-122 | every interleaving of plan and execute calls keeps the server's invariant |
| ChangeServer.EveryChangeIsJustified | pkg/toolsets/core/delete_resource.go:32-53 | every change not auto-written has an earlier plan, an acceptance of its token presented in time, and an approval, all of the identical operation; deletes and execs always do; a delete was confirmed by its typed, non-empty name |
| ChangeServer.EventsAreSteps | pkg/confirm/confirm.go:221-241 | every plan, acceptance, approval and change of the history is a step of the run: the approval with the user's own reply, the change as one the API applied where it landed |
| ChangeServer.GrantsAreDistinct | pkg/confirm/confirm.go:125-171 | two changes share no call, acceptance or approval, and share a plan only if the later acceptance came after the token's expiry |
| ChangeServer.ReadOnlyChangesNothing | pkg/toolsets/merged/tools.go:94-96 | in read-only mode no run plans or changes anything |
| PlannedChange.GrantedChangeIsThePlannedOne | pkg/toolsets/provisioning/scale_node_pool.go:66-87 | whatever changes in between, a granted change submits the planned pool index and size, resolved IDs, object, patch, joined command or name; a creation has the manifest's group and version, a patch or deletion a type of the planned kind; it is the planned change on the planned cluster if and only if the unbound parts are the same |
| PlannedChange.GrantedChangeLands | pkg/client/client.go:310-386 | in every run a granted request for the local cluster, for an ID its handler resolved, or for a name its plan found to be an ID, lands there |
| PlannedChange.PlannedOperation | pkg/toolsets/core/projects/move_namespace.go:121-131 | every change an operation describes carries what its plan's parameters and reads say, for all ten operations |
| PlannedChange.GrantedScaleAnswersItsPlan | pkg/toolsets/provisioning/scale_node_pool.go:108-209 | in every run a granted scaling changes the first pool of the planned name to its planned quantity plus the amount to add, or minus the one to subtract, or to the desired size |
| PlannedChange.ScaleAnsweredIff | pkg/toolsets/provisioning/scale_node_pool.go:108-209 | with amounts in range a request gets a patch if and only if that size is allowed for that pool |
| PlannedChange.MoveKeepsTheRest | pkg/toolsets/core/projects/move_namespace.go:104-116 | a move keeps every other label and annotation, and the rest of the namespace it read |
| PlannedChange.ManifestAcceptedIff | pkg/toolsets/core/create_resource.go:33-52 | a manifest is accepted if and only if it has a kind and a version and agrees with the call on kind, up to case, and name |
| PlannedChange.PreparedIffPlannable | pkg/toolsets/core/delete_resource_plan.go:20-50 | which plans and which calls get through their handlers: a call needs what its plan needs, but not the object read again |
| PlannedChange.PlanNamesOperation | pkg/toolsets/core/exec_pod.go:91 | the fields of the operation that each plan's token binds |
| ChangeServer.TokenOpensTheWay | pkg/confirm/confirm.go:150-162 | after any run the checks pass if and only if the token was planned for this very operation and has not expired, and it is taken if and only if it is not remembered as used |
| ChangeServer.TokenLivesItsLifetime | pkg/confirm/confirm.go:104-152 | in every run a successful plan is logged with its parameters, and its token passes the check of a later call if and only if the second of the plan plus the lifetime is not past |
| ChangeProtocol.ReadyCallGoesThrough | pkg/confirm/confirm.go:221-241 | a call with an unused token in order, once approved, leads to exactly one state: its change made and justified |
| ChangeProtocol.PlannedChangeGoesThrough | pkg/toolsets/core/exec_pod.go:83-128 | after any run, a plan followed by any call that prepares its operation makes that call's change, once approved, and logs exactly what justifies it |
| ChangeProtocol.EveryDescribedChangeCanFollow | pkg/confirm/confirm.go:153-156 | after any run, a plan's token can be spent on every change its operation describes, with every type some apiVersion and snapshot give the kind, on every cluster the lookup may answer with |
| ChangeProtocol.DeletedTypeIsNotBound | pkg/toolsets/core/delete_resource.go:25-50 | a deletion planned for one type can be made on every other type that some apiVersion and snapshot give its kind, and on the planned cluster |
| ChangeProtocol.ProcessIsNotBound | pkg/toolsets/core/exec_pod.go:91-120 | for any container and any command of the same payload there is a run that plans one and runs the other |
| ChangeProtocol.CommandIsFixedIff | pkg/toolsets/core/exec_pod.go:78-91 | in every run the granted command is the planned one if and only if that is one argument without NUL bytes |
| ChangeProtocol.LandingIsFixedIff | pkg/client/client.go:112-113 | in every run a change lands on the cluster its plan found if and only if it moves a namespace or the call names that cluster by its ID |
| ChangeProtocol.LandsElsewhere | pkg/toolsets/core/delete_resource.go:45-50 | otherwise, for every other cluster there is a run that plans on the one found and changes that |
| ChangeRace.OnePlanTwoChanges | pkg/confirm/confirm.go:150-169 | after any run, one plan can be spent on two changes, the first in time, after another token's late acceptance |
| ConcreteServer.TypeIsResolved | pkg/client/resolve.go:97-119 | the handlers' type of a kind is the answer of the route that kind and apiVersion take |
| ConcreteServer.CreationIsResolved | pkg/toolsets/core/create_resource.go:65-67 | so is that of a manifest, on its printed group and version, which parse back |
| ConcreteServer.SomeNameIff | pkg/client/resolve.go:136-161 | the names a snapshot can give a kind in a group and version are all those of main resources |
| ConcreteServer.SomeTypeIff | pkg/client/resolve.go:97-161 | the types some apiVersion and snapshot give a kind are its table entry and all main resources |
| ConcreteServer.TypeFollowsCall | pkg/client/resolve.go:102-112 | whatever the snapshot, an apiVersion fixes group and version, and a table kind without one has its entry |
| ConcreteServer.ExecutedTypeIff | pkg/client/resolve.go:136-216 | a call that discovers a type finds the planned one if and only if it resolves to its group and version, which the apiVersion names if there is one, and its snapshot gives the kind that name there |
| ConcreteServer.OneSnapshotOneType | pkg/client/resolve.go:136-216 | two calls on one snapshot find one type if and only if they resolve to one group and version |
| ConcreteServer.OtherVersionOtherType | pkg/toolsets/core/delete_resource.go:25-50 | with one snapshot throughout, a run plans a deletion of one type and, with another apiVersion, makes it on another |
| ConcreteServer.GrantedCreationHasItsVersion | pkg/toolsets/core/create_resource.go:39-76 | in every run a granted generic creation submits the planned manifest under that manifest's group and version, as a main resource |
| ConcreteServer.BuiltCreationBinds | pkg/toolsets/core/projects/create_project.go:34-60 | an execute call of a tool that builds its object prepares the planned operation if and only if it agrees on exactly the listed parameters |
| ClusterDrift.AnswersAreAllowed | pkg/client/client.go:310-386 | for any clusters and failures no ID is forgotten, answers are cached, and every answer is one the step machine allows |
| ClusterDrift.AllowedAnswersHappen | pkg/client/client.go:310-386 | every answer the step machine allows is given by some clusters after one other lookup |
| ClusterDrift.StableIffUnambiguous | pkg/client/client.go:310-386 | while the clusters stay the same, a name keeps its answer if and only if display names are unambiguous |
| ClusterDrift.ChangeCanDrift | pkg/client/client.go:112-113 | with two clusters of one name, the lookups of a plan and of its request answer differently, and a run changes the cluster that was not planned |
| HandlerMethods.DeleteKubernetesResource | pkg/toolsets/core/delete_resource.go:22-53 | the ordered effects equal the specification: refused, declined or exactly one deletion |
| HandlerMethods.UpdateKubernetesResource | pkg/toolsets/core/patch_resource.go:110-143 | the same for patches, with the auto-write bypass |
| HandlerMethods.RunInPod | pkg/toolsets/core/exec_pod.go:83-128 | the same for commands, behind the exec flag and never bypassed |
| HandlerMethods.ScaleClusterNodePool | pkg/toolsets/provisioning/scale_node_pool.go:36-91 | the same for scaling: the patch checked is the patch submitted |
| HandlerMethods.MoveNamespace | pkg/toolsets/core/projects/move_namespace.go:30-66 | the same for moves, with the namespace object updated in place |
| HandlerMethods.CreateKubernetesResource | pkg/toolsets/core/create_resource.go:33-91 | the same for manifests: checked against the parameters, resolved by the manifest's own kind and version, in the namespace the parameter or else the manifest names |
| HandlerMethods.CreateBuilt | pkg/toolsets/provisioning/create_k3k_cluster.go:142-176 | the same for the four tools that build the object they create: project, custom, imported and K3k cluster |
| HandlerMethods.NamespaceObject.AssignProject | pkg/toolsets/core/projects/move_namespace.go:104-116 | exactly the project label and annotation are set, also from nil maps |
| HandlerMethods.UninterruptedCallIsARun | pkg/confirm/confirm.go:221-241 | a handler call without interruption is one run of the step machine: same memory, same changes, same clusters |
| ScaleNodePool.ComputeScalePatch | pkg/toolsets/provisioning/scale_node_pool.go:108-209 | the loop with its reassignments and exits computes the specified patch or error |
| ScaleNodePool.EmitsExactlyTheTrueSize | pkg/toolsets/provisioning/scale_node_pool.go:108-209 | for int32 inputs a patch is emitted if and only if the mathematical size is allowed for the first pool of that name, and carries that size |
| ScaleNodePool.WrapIsRefused | pkg/toolsets/provisioning/scale_node_pool.go:156-184 | every int32 wrap-around lands on a refused size |
| ScaleNodePool.TrueSizeIffAmountFits | pkg/toolsets/provisioning/scale_node_pool.go:109-142 | for any inputs an emitted patch answers a well-formed request with the size asked for if and only if the deciding amount fits int32, the desired size is not negative and at most one amount is named |
| ScaleNodePool.PatchAnswersRequest | pkg/toolsets/provisioning/scale_node_pool.go:144-209 | every emitted patch names the first pool of that name, a size that keeps its quorum, and with amounts in range the size asked for |
| ScaleNodePool.RefusalMeans | pkg/toolsets/provisioning/scale_node_pool.go:114-190 | what each of the ten refusals says about the request and the pool |
| ScaleNodePool.TruncationHidesAmounts | pkg/toolsets/provisioning/scale_node_pool.go:109-142 | requests naming two amounts, or a negative size, that get a patch because int32 cuts them to zero |
| ScaleNodePool.EtcdQuorum | pkg/toolsets/provisioning/scale_node_pool.go:164-184 | corollary: an emitted size is positive, and for etcd odd, at most 7 and no decrease below 3 |
| ExecPod.SplitJoin | pkg/toolsets/core/exec_pod.go:78 | splitting the payload returns the command if and only if it is non-empty and has no NUL byte |
| ExecPod.JoinOfParts | pkg/toolsets/core/exec_pod.go:78 | the payload of a command joins those of its parts by a zero byte |
| ExecPod.OneCleanCommandPerPayload | pkg/toolsets/core/exec_pod.go:78 | every payload is that of exactly one command without NUL bytes |
| ExecPod.PayloadDeterminesCommand | pkg/toolsets/core/exec_pod.go:78-91 | no other command has a command's payload if and only if it is one argument without NUL bytes |
| ExecPod.NulMergesCommands | pkg/toolsets/core/exec_pod.go:78 | every longer command shares its payload with its own merged form |
| ExecPod.CappedBuffer.Write | pkg/toolsets/core/exec_pod.go:64-76 | after any writes the buffer is the first limit bytes, the mark is exact, and each write reports its length |
| ExecPod.WrittenKeepsThePrefix | pkg/toolsets/core/exec_pod.go:64-76 | the same of any sequence of writes: first limit bytes, exact mark |
| ExecPod.TruncatedMeansDropped | pkg/toolsets/core/exec_pod.go:65-74 | the mark says that bytes were dropped if and only if bytes were, or no empty write found the buffer full |
| ExecPod.NonEmptyWritesMark | pkg/toolsets/core/exec_pod.go:65-74 | with non-empty writes the buffer is marked if and only if more than limit bytes were written |
| ExecPod.EmptyWriteMarks | pkg/toolsets/core/exec_pod.go:72-74 | a full buffer marked by an empty write that drops nothing |
| Keepalive.Gate.BeginElicitation | pkg/keepalivegate/keepalivegate.go:123-140 | the counter, the throttle reference and the wait returned |
| Keepalive.Gate.FinishElicitation | pkg/keepalivegate/keepalivegate.go:144-161 | the last finish cancels the watchdog and removes the entry |
| Keepalive.Gate.StartWatchdog | pkg/keepalivegate/keepalivegate.go:169-179 | a watchdog starts only for a present entry without one |
| Keepalive.RunKeeps | pkg/keepalivegate/keepalivegate.go:84-118 | every interleaving of middleware calls keeps the invariant |
| Keepalive.OpenCountsCallsInFlight | pkg/keepalivegate/keepalivegate.go:123-161 | a session's counter is its number of calls in flight, and its entry exists if and only if that is positive |
| Keepalive.OneWatchdogPerSession | pkg/keepalivegate/keepalivegate.go:144-179 | at most one live watchdog a session, none without a call in flight, one while a dialog is open |
| Keepalive.WatchdogFindsItsEntry | pkg/keepalivegate/keepalivegate.go:111 | a call that reaches ensureWatchdog finds its entry |
| Keepalive.ThrottleSpacesBegins | pkg/keepalivegate/keepalivegate.go:131-137 | every wait lies within the spacing; earliest starts are in begin order, each at least the spacing after the previous begin |
| Keepalive.StartsSpacedExactlyWhen | pkg/keepalivegate/keepalivegate.go:131-137 | when two successive starts are themselves spaced, as an equivalence |
| Keepalive.StartsCanBeCloser | pkg/keepalivegate/keepalivegate.go:131-137 | a run whose starts are half the spacing apart |
| ClusterLookup.ClusterIds.GetClusterID | pkg/client/client.go:310-386 | answer and both caches after one lookup, for any API failure |
| ClusterLookup.LookupCorrect | pkg/client/client.go:310-386 | with any failures the caches stay sound and the answer is the cacheless one or the failure |
| ClusterLookup.WalkFinds | pkg/client/client.go:343-366 | the list loop, filling the caches up to the match, finds the first cluster of that name |
| ClusterLookup.TransparentIffUnambiguous | pkg/client/client.go:310-386 | with unambiguous display names no sequence of lookups reveals the caches; with ambiguous ones some sequence does |
| Resolve.ResolveInGroupVersion | pkg/client/resolve.go:136-161 | the first resource of the kind in a list of that version, or the kinds available there |
| Resolve.ResolveInGroup | pkg/client/resolve.go:163-180 | the first resource of the kind in a list of that group |
| Resolve.ResolveByDiscovery | pkg/client/resolve.go:182-216 | the scan with its set of seen groups finds one match a group, in order |
| ResolveRoutes.ScanSucceedsIffOneGroup | pkg/client/resolve.go:163-216 | the scan finds a type if and only if one group alone serves the kind and the lookup in that group finds it |
| ResolveRoutes.NotFoundIffNotServed | pkg/client/resolve.go:136-216 | a not-found answer if and only if nothing where the route looks serves the kind outside subresources |
| ResolveRoutes.FoundIff | pkg/client/resolve.go:136-216 | each route finds a type if and only if it is the first resource with no slash in its name and that kind up to case, in the list that decides: the first such list where the route looks, and for the scan the only group |
| ResolveRoutes.RouteTaken | pkg/client/resolve.go:97-130 | which route a call takes, by kind, apiVersion and table, and how its parts are read |
| ResolveRoutes.QualifiedIff | pkg/client/resolve.go:121-130 | a kind is qualified by a group if and only if it is "group/Kind", or else "Kind.group" |
| ResolveRoutes.SpellsIff | pkg/client/resolve.go:102-104 | a text parses to a group and version if and only if it joins them by a slash, or is the version alone for no group |
| ResolveRoutes.NotFoundTells | pkg/client/resolve.go:157-161 | a not-found answer lists exactly the kinds that the version offers, and says it is not served if there are none |
| ResolveRoutes.AmbiguousNames | pkg/client/resolve.go:204-216 | an ambiguous answer names of each serving group, two at least, what the lookup in it finds |
| Text.EqualFoldIff | pkg/client/resolve.go:151 | kinds are compared letter by letter, up to ASCII case |
| ResolveRoutes.RoutesAgree | pkg/client/resolve.go:136-180 | what a group lookup finds, its own group and version find too |
| ResolveRoutes.AmbiguityAdviceWorks | pkg/client/resolve.go:208-216 | retrying as the ambiguity error advises finds that match |
| ResolveRoutes.ParseJoined | pkg/client/resolve.go:102-108 | a group and version joined by a slash parse back |
| DiscoveryCache.Client.FetchedResources | pkg/client/resolve.go:43-62 | a live entry is served, anything else is fetched and stored with a new expiry |
| DiscoveryCache.Client.ResolveGvr | pkg/client/resolve.go:88-95 | whatever other calls store meanwhile, not found is true of the snapshot this call fetched last; a found type is in one this call fetched or one of its cluster younger than the TTL; at most two fetches |
| DiscoveryCache.RetrySeesTheNewSnapshot | pkg/client/resolve.go:88-95 | a stale snapshot that lacks the kind is replaced, and the answer is that of the new one |
| Sorting.SortSlice | pkg/utils/pagination.go:46-51 | sorting in place yields a sorted permutation, ties in any order |
| Sorting.LessIff | pkg/utils/pagination.go:46-51 | strings compare by their first difference, a proper prefix first |
| Pagination.BeforeMeans | pkg/utils/pagination.go:46-51 | resources are ordered by namespace, then by name |
| Pagination.SortAndPaginate | pkg/utils/pagination.go:38-64 | the list is sorted in place and the window, or the panic, of the wrapped int64 bounds is the specified one |
| Pagination.PageAt | pkg/utils/pagination.go:53-63 | a returned page is exactly the requested stretch of the sorted list, with exact HasMore |
| Pagination.AnyOrderSortsAlike | pkg/utils/pagination.go:46-51 | with distinct keys all permutations sort to one list |
| Pagination.TraversalVisitsEachOnce | pkg/utils/pagination.go:38-64 | following offset plus limit gives every resource once, in order, in max(1, ceil(n/limit)) pages, though the API reorders; it breaks off if and only if the last end exceeds int64 |
| Pagination.NoteIsRight | pkg/utils/pagination.go:68-81 | no note if and only if a first page shows all; an offset is advised if and only if resources remain, and starts with the first not shown |
| ToolList.RenderToolList | pkg/toolsets/instructions.go:60-84 | the loop renders the greedy layout of the items |
| ToolListWrapping.GreedyIsOptimal | pkg/toolsets/instructions.go:60-84 | the layout keeps the items in order, fits if and only if some layout does, and no fitting layout has fewer lines |
| ToolListWrapping.RenderedListIsNarrow | pkg/toolsets/instructions.go:49-51 | with a prefix and items that fit, no line of the text exceeds 77 columns |
| ToolListReading.RenderedListReadsBack | pkg/toolsets/instructions.go:60-84 | splitting the text after its prefix at blanks returns the names in order, each once |
| ToolListReading.TextIsWritten | pkg/toolsets/instructions.go:60-84 | the text is the prefix and the names in order, separated by a blank or a line break and indent, closed by commas and a last parenthesis |
| ToolListReading.InventoryIsTheTable | pkg/toolsets/instructions.go:10-47 | the names in the rule are those of the table of changes |
| ToolListReading.PlainNamesRender | pkg/toolsets/instructions.go:49-84 | any names without blanks that fit a line render narrow and read back |
| ToolListReading.SafetyRuleNamesEveryOperation | pkg/toolsets/instructions.go:10-47 | closed instance: in both configurations the rendered rule is narrow and reads as exactly the write operations |
| ImageIndex.ImageUsages | pkg/toolsets/core/get_cluster_images.go:71-97 | the loops list each used image once, by first use, with exactly its pods in order and with multiplicity |
| ImageUses.UseAt | pkg/toolsets/core/get_cluster_images.go:78-92 | the uses are those of each pod in order, init containers first, under the pod's name and namespace |
| ImageIndex.GetClusterImages | pkg/toolsets/core/get_cluster_images.go:56-99 | every named cluster is listed from its last mention, and a failed read fails the call |
| ImageIndex.InversionIsUnique | pkg/toolsets/core/get_cluster_images.go:71-97 | that description determines the listing |
| ImageIndex.ReferencesAreContainers | pkg/toolsets/core/get_cluster_images.go:78-92 | there are as many references as init containers and containers |
| Masking.MaskVolatile | scripts/baseline/main.go:1415-1435 | overwriting entries in any order yields the specified document |
| Masking.MaskIdempotent | scripts/baseline/main.go:1415-1435 | masking again changes nothing |
| Masking.MaskAlikeIffSameUpToHidden | scripts/baseline/main.go:1415-1435 | two documents mask alike if and only if they differ only in hidden entries |
| Masking.MaskChangesOnlyHidden | scripts/baseline/main.go:1410-1414 | a document and its mask differ only in hidden entries |
| Masking.MaskAtPath | scripts/baseline/main.go:1415-1435 | what is left at every path: the mask at an overwritten entry, nothing below it, all else unchanged |
| Masking.MaskedEntry | scripts/baseline/main.go:1340-1368 | which keys and values are overwritten, and with what |
| Masking.EveryNumericLeafMaskedIff | scripts/baseline/main.go:1360-1363 | every numeric leaf below a metrics key is masked if and only if no array there holds a number directly |
| SortedJson.SortJson | scripts/baseline/main.go:1481-1503 | the rebuilt value is the same, and its keys are in byte order at every level |
| SortedJson.WrittenOneWay | scripts/baseline/main.go:1467-1480 | a value has one form with sorted keys, so the order of map iteration never shows |
| SortedJson.WrittenReadsBack | scripts/baseline/main.go:1467-1503 | different values have different sorted forms |
| Quantity.IsQuantityIffSpelled | scripts/baseline/main.go:1437-1458 | the scan accepts exactly what the pattern spells |

## Left out

- Confirm.Gate.IssueToken: failures of the random source and of the JSON encoder are not modelled; nonces are fresh inputs.
- Confirm.Gate.RequireToken: HMAC, base64 and JSON are replaced by the set of issued bodies, so forged tokens are simply not in it.
- BuiltObjects.SameBuiltIff: the version catalogue of custom clusters is an input, so how distribution and version select a release is not modelled; the parts of a custom cluster's object that never vary are left out.
- ChangeHandlers.SameOperationIff: YAML and JSON decoding of a manifest is the field map it yields; a patch that does not decode is one value.
- Dispatch.Validate: fields that no table requires and no other handler shares (the token, the description, project and K3k options) are not among those that can be required.
- PlannedChange.GrantedChangeIsThePlannedOne: the plan of a generic creation resolves no resource type, and no cluster, so when they are not known at planning there is no planned change or cluster to compare with.
- ScaleNodePool.ComputeScalePatch: a nil pool quantity, on which the source panics, is not modelled.
- Keepalive.Gate.StartWatchdog: pings and a watchdog's exit on a ping error are not modelled, only whether its context is live; methods other than elicitation pass through and are left out.
- ClusterLookup.TransparentIffUnambiguous: that ambiguity shows assumes a local cluster known by no name but "local", as the comment at pkg/client/client.go:311 says; the list of clusters is fixed over the sequence of lookups; for clusters that change, `ClusterDrift.AllowedAnswersHappen` says what lookups can answer.
- Resolve.ResolveInGroupVersion: the sorting of the available kinds and the wording of errors are not modelled, and case folding is ASCII only.
- DiscoveryCache.Client.ResolveGvr: other calls store before each cache read; a store between that read and this call's own store is not a separate step, since the latter overwrites it for the same cluster.
- Pagination.NoteIsRight: the note is its fields, not its English text.
- ToolList.RenderToolList: widths count characters, which are bytes for the ASCII names the server renders.
- Masking.MaskVolatile: nested objects are values rather than shared heap cells, so aliasing between subtrees is not captured.
- SortedJson.SortJson: indentation and escaping of the printed text are not modelled.
- Patch decoding, the JSON patch library, HTTP, Kubernetes and Rancher calls, log streaming and OAuth are inputs or outside the model.
- Read-only query and diagnose handlers, fleet, rbac, response formatting, schemas, flags and logging would only add easy members.
