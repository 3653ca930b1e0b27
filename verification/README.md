# Verification model of the Hermes control plane

A Dafny model of the parts of the control plane that decide what may run and what counts as delivered, with
proofs of what they promise. Four connected pieces, and three smaller ones:

- **Blueprint artifact manifests.** Binding artifacts to a cluster blueprint, ordering them by their declared
  dependencies (Kahn's algorithm with a sorted ready list), reporting cycles, deciding READY or BLOCKED, and the
  second, independent check of a manifest before an offline plan is built from it. Files `Ordering`, `Kahn`,
  `DependencyOrder`, `Text`, `Blueprint`, `ReadyManifest`, `Diagnosis`, `Resume`, `OfflineSupply`, `OnePerComponent`.
- **ChangeSets, approvals and jobs.** Planning, preview, approval, rejection, cancellation, expiry, policy changes,
  tickets, job starts and transitions, as a transition system over the tables. Every handler is a method over those
  tables, proved to refuse or to commit exactly one step (two for planning a mutation). The two job start paths are
  also split into their checks and their guarded writes, with any steps in between. Files `Risk`, `Contracts`, `Tables`,
  `Hashing`, `Approvals`, `Handlers`, `Ledger`, `Runs`, `Steps`, `StartChecks`, `Safety`, `Expiry`, `Policy`,
  `TwoPersonRule`, `DelayedStarts`, `StartOnce`, `Witnesses`, `SecondStarts`, `ControlPlane`.
- **Canonical JSON and plan hashes.** What is hashed, that it does not depend on key order, that a stored plan still
  has its hash, and the plan bound to an offline supply. Files `Json`, `JsonText`, `CanonicalForm`, `PlanHash`,
  `BoundPlan`.
- **The artifact mirror.** Publishing files, Git releases, Ansible collections and repository trees over a file
  system in which every primitive may fail and a crash may follow any step, and images and charts from registry to
  registry. Files `FileSystem`, `Mirror`, `Snapshot`, `OciMirror`, `MirrorRecord`.
- **One-time approval plugins** (`OneTime`, `ExecutionPlugin`, `PackagePlugin`), **agent tasks** (`Agents`) and
  **flow history** (`Hubble`).

SHA-256, HMAC signatures, URL parsing, archive extraction and tree validation are arbitrary functions, passed as
parameters. Where the absence of collisions matters it is a hypothesis of the theorem: of the transition system's hash
(`Tables.CollisionFree`: a hash tells documents apart up to key order), which `Hashing.Sha256IsCollisionFree` derives for
the canonical hash from SHA-256 having none. Python's `==` on dictionaries is `Json.Equivalent`. Clock readings,
generated ids, broker and worker replies, and the outcome of re-resolving an artifact manifest at start time are
parameters or free choices.

A *run* is a sequence of states from an empty database, each following from the one before by an event of module
`Runs`. The event `Environment` rewrites targets, credentials, stored plan texts and provider job rows in any way;
`Finish` is the unconditional write that ends an execution or a live preview. A refused handler leaves the database
as the lookup of its ChangeSet left it (the lazy expiry commits on its own), so refusals are the event `Expire` or no
event. History columns that the source does not store (`planned` of a ChangeSet, `issued` of a job, the request in an
audit row) only remember values; no step reads them. A written request stays among those in flight, so one without
approvals to spend may be written again, which the source never does: that adds runs and takes none away.

Where a claim one might make of the code fails, the condition under which it holds is proved:

- A READY manifest is accepted by the offline supply check exactly if every entry has a non-empty id and an exact
  digest; the resolver itself checks neither (`OfflineSupply.ReadyIsSuppliedIffPinned`). With one mirrored artifact for
  each component a manifest is READY whatever digest those carry (`OnePerComponent.ReadyWhateverTheDigest`). The API
  enforces the digest when an artifact is created (models.py:538) and generates the id, so no row made through it fails.
- A BLOCKED manifest names no artifact to resume from exactly if nothing holds up any artifact that was admitted: the
  defect is then a refused binding, an uncovered component or a cycle (`Resume.BlockedWithoutResumePointIff`). So it is
  where a cycle is the only defect (`Resume.OnlyDefectHasNoResumePoint`), as in any blueprint with one mirrored artifact
  for each component of which two depend on each other (`OnePerComponent.MutualDependencyHasNoResumePoint`), and of a
  blueprint that binds nothing.
- `_finish` hashes whatever it is given: its result verifies exactly if the dictionary held no `plan_hash` before
  (`PlanHash.FinishVerifiesIff`).
- A start whose checks and writes are apart can be overtaken. Its writes still go through exactly if its job is there
  and nothing in between settled one of its approvals: no rejection or cancellation, no policy change while the
  ChangeSet was undecided or stale, and no start that spent one of them (`DelayedStarts.DelayedWriteIff`). A policy
  change therefore does not stop a checked start that has no approvals to spend, nor one whose ChangeSet expired
  first: `Witnesses.OldApprovalIsSpent` is a run in which an approval of the old policy is spent, after the ticket's
  120 seconds. What an older policy may still do is exactly what was in flight (`Policy.OldPolicyIsOver`).
- A ChangeSet that needs approval, or its operation job, can start twice. The cause is the end of a live preview, which
  writes PREVIEWED whatever the state (main.py:2541-2544): what was approved can then be approved once more. If every
  live preview of a ChangeSet ends before its approval, or once the ChangeSet is past its expiry or its policy, it starts
  at most once by any path (`StartOnce.StartsAtMostOnce`). A preview that ends in a state allows a second start exactly if
  that state is none of PLANNED, PREVIEWED, AWAITING_APPROVAL, EXPIRED and STALE_POLICY
  (`SecondStarts.SecondStartAfterPreviewIff`; for each other state there is a run for every operation of HIGH risk).
  `SecondStarts.OneJobStartsTwice` is the run of a job. The second start of a job was always in flight when the first was
  committed (`DelayedStarts.SecondStartWasInFlight`), and can write exactly if it could before and shares no approval
  with it (`DelayedStarts.SecondStartIff`). The job leaves READY only once all the same (`Safety.JobLeavesReadyOnce`).
  What a live preview replies is a free choice here. The Kubernetes broker of this repository answers those of
  `kubernetes.manifest.*` and `helm.*` only (kubernetes-broker/src/hermes_kubernetes_broker/main.py:747-763), which have
  no operation jobs: with it the runs that execute a ChangeSet directly remain.
- `execute_changeset` ignores the row count of its update. Were its block split, the accounting would survive exactly
  if every selected approval were still unspent (`Policy.UncheckedWritesKeepAccountsIff`); it is modelled as one block.

## Model

| member | source | states |
|---|---|---|
| Blueprint.RequiredComponentsAre | control-plane/src/hermes_control_plane/cluster_factory.py:164-178 | the required components are the provider, Kubernetes, and exactly the requested add-ons of the catalog, each with its pinned version |
| Blueprint.AddonRequiredIff | control-plane/src/hermes_control_plane/cluster_factory.py:164-178 | an add-on is required exactly if the catalog has it and it is asked for, by default, by a switch or by name, at the version pinned for it |
| Blueprint.OfflineReference | control-plane/src/hermes_control_plane/cluster_factory.py:181-194 | a destination is an offline reference exactly if it is a credential-free local file or registry URL, and is then returned unchanged |
| Blueprint.BindArtifacts | control-plane/src/hermes_control_plane/cluster_factory.py:210-268 | the binding loop computes the reference bindings and issues, and its coverage counters are zero exactly for uncovered components |
| Blueprint.FindMissingComponents | control-plane/src/hermes_control_plane/cluster_factory.py:270-272 | reading the counters finds the components without an entry |
| Blueprint.FindEdgeIssues | control-plane/src/hermes_control_plane/cluster_factory.py:274-280 | the edge loops report each self edge and each edge that leaves the bound set |
| Blueprint.EntryIdsDistinct | control-plane/src/hermes_control_plane/cluster_factory.py:210-230 | even when an id is bound twice no two entries share an id |
| Diagnosis.EntriesDescribe | control-plane/src/hermes_control_plane/cluster_factory.py:216-262 | every entry is a bound artifact's: component, name, key and dependencies are its labels', version, digest, kind and reference its columns', and mirrored means PASS and MIRRORED |
| Diagnosis.IssueIff | control-plane/src/hermes_control_plane/cluster_factory.py:207-280 | every kind of issue but the cycle report is reported exactly where there is the defect it names: a repeated, missing, unexpected, badly or doubly keyed binding, a wrong version, an unsafe reference, an artifact not mirrored, a repeated, self or dangling edge, an uncovered component |
| Blueprint.ResolveManifest | control-plane/src/hermes_control_plane/cluster_factory.py:197-330 | the whole resolver computes the reference resolution: issues, order, cycle report, resume point, state and hash, under the blueprint's id and name |
| Text.DependencyListRoundTrip | control-plane/src/hermes_control_plane/cluster_factory.py:250-251 | ids written as a comma-separated label are read back unchanged |
| Text.BlanksAreIgnored | control-plane/src/hermes_control_plane/cluster_factory.py:250-251 | blanks around the ids of the label, and entries of blanks only, are ignored |
| Kahn.BuildGraph | control-plane/src/hermes_control_plane/cluster_factory.py:282-288 | indegrees count and follower lists hold exactly the edges between different bound artifacts, repeats kept |
| Kahn.Release | control-plane/src/hermes_control_plane/cluster_factory.py:300-304 | lowering the followers' indegrees keeps the ready list sorted and adds exactly those that reach zero |
| Kahn.EmitReady | control-plane/src/hermes_control_plane/cluster_factory.py:295-304 | the loop with in-place indegrees emits the greedy order: at each turn the least artifact whose dependencies are all out |
| Kahn.ReportCycle | control-plane/src/hermes_control_plane/cluster_factory.py:305-307 | the reported ids are the artifacts that were never emitted, in increasing order |
| Kahn.OrderDependencies | control-plane/src/hermes_control_plane/cluster_factory.py:282-308 | the algorithm computes the published order, and reports a cycle exactly if something could not be emitted |
| DependencyOrder.OrderIsLeastTopological | control-plane/src/hermes_control_plane/cluster_factory.py:290-304 | without a report the order is topological, and no topological order comes before it under the sort key |
| DependencyOrder.LeastTopologicalUnique | control-plane/src/hermes_control_plane/cluster_factory.py:290-304 | that property determines the order |
| DependencyOrder.OrderIsPermutation | control-plane/src/hermes_control_plane/cluster_factory.py:297-308 | with or without a cycle the order lists every artifact once |
| DependencyOrder.StuckIffDependsOnCycle | control-plane/src/hermes_control_plane/cluster_factory.py:286-307 | what is never emitted is exactly what lies on a cycle or transitively depends on one |
| DependencyOrder.OrderableIffAcyclic | control-plane/src/hermes_control_plane/cluster_factory.py:305-307 | a topological order exists, and nothing is left over, exactly if there is no cycle |
| DependencyOrder.CyclesHaveTwoEdges | control-plane/src/hermes_control_plane/cluster_factory.py:286-288 | since self edges are skipped, every cycle has at least two edges |
| ReadyManifest.ReadyIffComplete | control-plane/src/hermes_control_plane/cluster_factory.py:197-313 | READY holds exactly if the bindings are distinct, existing, matching, uniquely keyed, safe, mirrored and duplicate-free, closed under edges, acyclic, and cover every required component |
| ReadyManifest.CycleReport | control-plane/src/hermes_control_plane/cluster_factory.py:305-307 | a cycle issue appears exactly if the bound artifacts have a cycle, and lists, in order, exactly those on or depending on one |
| ReadyManifest.ManifestOrder | control-plane/src/hermes_control_plane/cluster_factory.py:295-310 | the manifest's order lists every bound artifact once, and without a cycle it is the least topological order |
| ReadyManifest.ReadyEntriesPrecede | control-plane/src/hermes_control_plane/cluster_factory.py:290-304 | in a READY manifest an entry stands before every later one whose dependencies were all out: provider, Kubernetes, add-ons, and within each by name, key and id |
| ReadyManifest.PermutationInvariant | control-plane/src/hermes_control_plane/cluster_factory.py:200-313 | permuting the bindings or the artifact list changes neither the state nor the order of a READY manifest |
| Resume.BeforeResumeIsClosed | control-plane/src/hermes_control_plane/cluster_factory.py:310-312 | without a cycle, everything before the resume point is mirrored, free of issues, and depends only on what stands before it |
| Resume.ResumePointIff | control-plane/src/hermes_control_plane/cluster_factory.py:311-312 | an id is named to resume from exactly if it is that of the first entry in the order that is not mirrored, has a defect or is bound twice |
| Resume.NoResumePointIff | control-plane/src/hermes_control_plane/cluster_factory.py:311-312 | no resume point is named exactly if every ordered entry is mirrored, without defect and bound once |
| Resume.BlockedWithoutResumePointIff | control-plane/src/hermes_control_plane/cluster_factory.py:311-313 | a manifest is BLOCKED without a resume point exactly if its bindings are not complete although nothing holds up any admitted entry |
| Resume.CycleAloneHasNoResumePoint | control-plane/src/hermes_control_plane/cluster_factory.py:305-313 | a cycle among entries that are otherwise in order blocks the manifest without naming a resume point |
| Resume.OnlyDefectHasNoResumePoint | control-plane/src/hermes_control_plane/cluster_factory.py:305-313 | where a cycle is the only defect of the whole binding, it is the only issue, the manifest is BLOCKED, and no resume point is named |
| OnePerComponent.MutualDependencyHasNoResumePoint | control-plane/src/hermes_control_plane/cluster_factory.py:305-313 | every blueprint with one mirrored artifact for each required component, the first two depending on each other, is such a case |
| Resume.NothingBoundHasNoResumePoint | control-plane/src/hermes_control_plane/cluster_factory.py:270-313 | a blueprint without bindings is BLOCKED and names no artifact to resume from |
| OfflineSupply.OfflineArtifactSupply | control-plane/src/hermes_control_plane/cluster_factory.py:449-511 | the supply check accepts exactly the supplyable manifests, and keeps their hash, their order and every field of every entry; a refusal names a defect that is there, and the entry that has it |
| OfflineSupply.ReadyIsSuppliedIffPinned | control-plane/src/hermes_control_plane/cluster_factory.py:449-490 | a READY manifest is accepted exactly if every entry has an id and an exact digest |
| OfflineSupply.PinnedArtifactsAreSupplied | control-plane/src/hermes_control_plane/cluster_factory.py:449-490 | READY over named artifacts with exact digests is always accepted |
| OnePerComponent.ReadyWhateverTheDigest | control-plane/src/hermes_control_plane/cluster_factory.py:449-490 | one mirrored artifact for each required component is READY whatever digest they carry, and is supplied exactly if that digest is exact |
| Json.NormalIffEquivalent | control-plane/src/hermes_control_plane/canonical.py:8-10 | sorting keys at every depth identifies exactly the values that differ in key order |
| JsonText.ReadWrite | control-plane/src/hermes_control_plane/canonical.py:8-10 | a JSON parser returns the value that was written and the text behind it |
| JsonText.LoadsCanonical | control-plane/src/hermes_control_plane/canonical.py:8-10 | reading canonical text undoes writing it, up to key order |
| JsonText.CanonicalIffEquivalent | control-plane/src/hermes_control_plane/canonical.py:8-14 | canonical text is the same exactly for values that differ in key order at most |
| JsonText.LoadsWellFormed | control-plane/src/hermes_control_plane/main.py:3882-3891 | whatever text is stored, what is read from it has each key of a dictionary once |
| CanonicalForm.CanonicalIsCompact | control-plane/src/hermes_control_plane/canonical.py:8-10 | canonical text has no blanks of its own |
| CanonicalForm.CanonicalString | control-plane/src/hermes_control_plane/canonical.py:8-10 | a string is written as it is, whatever its alphabet, but for quotes, backslashes and control characters |
| CanonicalForm.CanonicalKeyOrder | control-plane/src/hermes_control_plane/canonical.py:8-10 | the keys of a dictionary are written each once and in code-point order |
| PlanHash.Dict.Finish | control-plane/src/hermes_control_plane/operations.py:464-466 | the dictionary it is given verifies under the hash written into it exactly if it held none before, and keeps its other fields |
| BoundPlan.BindReady | control-plane/src/hermes_control_plane/cluster_factory.py:514-535 | binding goes through exactly if the manifest passes the supply check; then the plan carries the supply, verifies, and keeps its other fields |
| BoundPlan.BoundPlanVerifies | control-plane/src/hermes_control_plane/cluster_factory.py:514-535 | a plan bound to an offline supply carries that supply and matches its hash, as built and as stored and read back |
| BoundPlan.BoundPlanKeeps | control-plane/src/hermes_control_plane/cluster_factory.py:514-535 | binding changes the schema version, the supply, the provider payload and the hash, and no other field |
| BoundPlan.BoundPayloadHoldsOrder | control-plane/src/hermes_control_plane/cluster_factory.py:515-531 | the provider payload of the bound plan lists the supply's artifacts in order, with the manifest's hash, the reference mode and the offline contract, under a schema version of at least 5 |
| BoundPlan.ReadyManifestIsBound | control-plane/src/hermes_control_plane/cluster_factory.py:489-535 | from the resolver to the plan: a READY manifest with exact digests is supplied, and the plan bound to it verifies and carries every entry in order, field by field as it is read back |
| PlanHash.FinishVerifiesIff | control-plane/src/hermes_control_plane/operations.py:464-466 | a finished plan verifies exactly if it held no hash before; one whose old hash is dropped first always does |
| PlanHash.StoredPlanVerifies | control-plane/src/hermes_control_plane/main.py:3890-3895 | written as text and read back, a plan still matches its own hash with that field removed |
| PlanHash.CopyVerifies | control-plane/src/hermes_control_plane/main.py:3889-3895 | so does any copy that differs in key order at most |
| PlanHash.HashBindsPlan | control-plane/src/hermes_control_plane/main.py:3890-3900 | two plans that verify under one hash are the same plan |
| PlanHash.StoredChangesetPlan | control-plane/src/hermes_control_plane/main.py:2234-2242 | the stored text of a ChangeSet's plan recomputes to its recorded hash, and any text that does so is that plan |
| Risk.PlannedNeedsApprovalIff | control-plane/src/hermes_control_plane/main.py:3845-3849 | a planned mutation is HIGH or CRITICAL exactly if its name has no read prefix |
| Risk.ClassifiedBy | control-plane/src/hermes_control_plane/risk.py:7-33 | the class of every name: READ by its beginning, else CRITICAL by a marker for two-person approval, else HIGH by a marker or by name, else LOW |
| Risk.CaseDoesNotMatter | control-plane/src/hermes_control_plane/risk.py:24-25 | names that differ in the case of letters only are of one class |
| Risk.MarkedIsCritical | control-plane/src/hermes_control_plane/risk.py:12-31 | a name that holds a marker for two-person approval is CRITICAL unless it reads as a read |
| Contracts.ContractRisk | control-plane/src/hermes_control_plane/operations.py:32-178 | of the contract operations exactly eight are planned CRITICAL, and every other one HIGH |
| Contracts.ContractOperationsNeedApproval | control-plane/src/hermes_control_plane/operations.py:32-178 | every operation of the provider, day-2 and mirror contracts is one that needs approval |
| Approvals.SelectRows | control-plane/src/hermes_control_plane/main.py:3910-3913 | the query's rows are exactly the unspent approvals of the plan, oldest first |
| Approvals.ChoosePerApprover | control-plane/src/hermes_control_plane/main.py:3914-3917 | the loop keeps the first valid approval of each approver |
| Approvals.ValidApprovalIds | control-plane/src/hermes_control_plane/main.py:3906-3920 | it succeeds exactly if enough approvers have a valid approval, and returns the earliest valid one of each of the first approvers |
| Approvals.PicksUnique | control-plane/src/hermes_control_plane/main.py:3910-3920 | that description determines the choice |
| Tables.Ttl | control-plane/src/hermes_control_plane/main.py:3960-3966 | a ticket lives between one and 120 seconds, and unless it is the one-second minimum it outlives neither the ChangeSet nor an approval |
| Tables.TtlIsGreatest | control-plane/src/hermes_control_plane/main.py:3960-3966 | no longer lifetime within 120 seconds, the ChangeSet and the approvals would do |
| ControlPlane.ControlPlane.LookUp | control-plane/src/hermes_control_plane/main.py:878-887 | looking a ChangeSet up expires it if it is past its time and not terminal |
| Expiry.LivesForItsTime | control-plane/src/hermes_control_plane/main.py:878-887 | in every run a ChangeSet planned for `ttl` seconds is not expired before they are over, and expires when it is looked up afterwards unless it has ended |
| ControlPlane.ControlPlane.InsertChangeset | control-plane/src/hermes_control_plane/main.py:2204-2245 | a ChangeSet is inserted exactly for a configured target, for this operation, target and requester, until `ttl` seconds from now, with the hash of a plan that holds, key by key, the operation, adapter, target, parameters, policy and target snapshot |
| ControlPlane.ControlPlane.PlanMutation | control-plane/src/hermes_control_plane/main.py:3832-3874 | the previewed ChangeSet around the typed plan, its operation plan and the waiting job are bound to one another; the ChangeSet is the requester's and expires `ttl` seconds from now |
| ControlPlane.ControlPlane.StoreOperationPlan | control-plane/src/hermes_control_plane/main.py:3807-3829 | plan and job rows carry the ChangeSet's id and plan hash |
| ControlPlane.ControlPlane.PreviewChangeset | control-plane/src/hermes_control_plane/main.py:2357-2371 | one step, exactly for a planned or previewed ChangeSet of the current policy, or a refusal that leaves the looked-up state |
| ControlPlane.ControlPlane.RequestApproval | control-plane/src/hermes_control_plane/main.py:2374-2389 | one step, exactly for a previewed ChangeSet of the current policy that needs approval |
| ControlPlane.ControlPlane.ApproveChangeset | control-plane/src/hermes_control_plane/main.py:2392-2444 | an approval of the current plan, signed and in date no longer than the ChangeSet, is added exactly for a ChangeSet that waits for one, by somebody who is not its requester and has none that still stands |
| ControlPlane.ControlPlane.RejectChangeset | control-plane/src/hermes_control_plane/main.py:2447-2464 | state and granted approvals change together, for any state that is not terminal |
| ControlPlane.ControlPlane.CancelChangeset | control-plane/src/hermes_control_plane/main.py:2467-2480 | the same without the policy check |
| ControlPlane.ControlPlane.BumpPolicyGeneration | control-plane/src/hermes_control_plane/db.py:661-675 | undecided ChangeSets of other generations go stale, and the granted approvals of stale ChangeSets with them |
| ControlPlane.ControlPlane.VerifyAuthorization | control-plane/src/hermes_control_plane/main.py:3923-3956 | it selects the approvals of an authorized job, and refuses only a job no selection would authorize |
| ControlPlane.ControlPlane.AuthorizeOperationJob | control-plane/src/hermes_control_plane/main.py:4564-4590 | a waiting or ready job gets a fresh ticket, which becomes the one issued last; it is refused only if no selection of approvals would authorize it |
| ControlPlane.ControlPlane.IssueTicket | control-plane/src/hermes_control_plane/main.py:3959-3994 | the ticket binds plan, hash, job and policy, lives as long as its approvals allow, and its hash is recorded with the job |
| ControlPlane.ControlPlane.CheckOperationStart | control-plane/src/hermes_control_plane/main.py:4636-4645 | a start passes its checks into a request in flight, or is refused, and then no start with that ticket passes |
| ControlPlane.ControlPlane.Consume | control-plane/src/hermes_control_plane/main.py:4655-4660 | the update spends exactly the approvals it finds unspent and returns their number |
| ControlPlane.ControlPlane.WriteOperationStart | control-plane/src/hermes_control_plane/main.py:4654-4667 | the writes go through exactly if every approval of the request is still unspent; otherwise nothing is changed |
| ControlPlane.ControlPlane.ExecuteOperationJob | control-plane/src/hermes_control_plane/main.py:4632-4667 | in one block the checks imply that the writes go through, and a refusal means that no start passes, the job's executor has no runtime, or the runtime cannot run the plan |
| ControlPlane.ControlPlane.MoveOperationJob | control-plane/src/hermes_control_plane/main.py:4724-4790 | a started job moves exactly by the allowed transitions, under its own ticket, while its ChangeSet executes |
| ControlPlane.ControlPlane.AbandonOperationJob | control-plane/src/hermes_control_plane/main.py:4742-4768 | a ready job is failed without consuming approvals, exactly under the checks of a start |
| ControlPlane.ControlPlane.FinishOperationJob | control-plane/src/hermes_control_plane/main.py:4694-4704 | job and ChangeSet end together, SUCCEEDED with EXECUTED and FAILED with FAILED |
| ControlPlane.ControlPlane.FinishChangeset | control-plane/src/hermes_control_plane/main.py:2541-2544 | the end of a live preview or an execution is written whatever the state |
| ControlPlane.ControlPlane.CheckProviderStart | control-plane/src/hermes_control_plane/main.py:1834-1844 | a provider job start passes its checks into a request in flight, or is refused, and then no start with that ticket passes |
| ControlPlane.ControlPlane.WriteProviderStart | control-plane/src/hermes_control_plane/main.py:1845-1862 | its writes go through exactly if every approval is still unspent |
| ControlPlane.ControlPlane.ExecuteChangeset | control-plane/src/hermes_control_plane/main.py:2550-2608 | the start is one step, with a ticket over the verified plan, and is refused only if no selection of approvals passes the checks |
| Runs.StepKeepsInvariant | control-plane/src/hermes_control_plane/main.py:2392-2623 | every step of every handler keeps the books: rows, starts, requests in flight and job tickets |
| Steps.ChangesetSteps | control-plane/src/hermes_control_plane/main.py:2392-2623 | the state of a ChangeSet after every step, and the states from which the step may be taken |
| Steps.ApprovalSteps | control-plane/src/hermes_control_plane/main.py:2447-2608 | what every step makes of an approval: only a granted one changes, by a start that took it or a decision on its ChangeSet |
| Steps.JobSteps | control-plane/src/hermes_control_plane/main.py:4564-4790 | an operation job moves by these steps only, along the allowed transitions |
| StartChecks.OperationStartIff | control-plane/src/hermes_control_plane/main.py:3877-4022 | a start of an operation job passes its checks exactly if, said of the rows themselves, the plan is intact, the policy current, the targets as planned, the approvals the earliest quorum, and the ticket the job's, in date and over these approvals |
| StartChecks.ProviderStartIff | control-plane/src/hermes_control_plane/main.py:719-807 | the same of a provider job, which checks no plan hash |
| StartChecks.MoveIff | control-plane/src/hermes_control_plane/main.py:4724-4741 | a started job moves exactly while its ChangeSet executes the intact plan, under its own ticket, in date or not |
| Hashing.Sha256IsCollisionFree | control-plane/src/hermes_control_plane/canonical.py:8-14 | if SHA-256 has no collisions, the canonical hash tells documents, and the dictionaries of job tickets, apart up to key order |
| Runs.OnlyLatestTicketStarts | control-plane/src/hermes_control_plane/main.py:3997-4009 | only the ticket last issued for a job, as a dictionary, passes the checks of a start, within its 120 seconds |
| Safety.SettledApprovalsStay | control-plane/src/hermes_control_plane/main.py:225-239 | in every run an approval that is consumed, rejected, cancelled or stale never changes again |
| Safety.ApprovalsAreAccountedFor | control-plane/src/hermes_control_plane/main.py:2570-2608 | in every run the consumed approvals of a ChangeSet are its quorum times its starts |
| Safety.NoApprovalSpentTwice | control-plane/src/hermes_control_plane/main.py:4655-4662 | in every run, split starts included, no approval is consumed by two starts |
| Safety.EveryStartWasApproved | control-plane/src/hermes_control_plane/main.py:3906-3920 | every start consumed approvals of enough different approvers, none the requester, each for the ticket's plan hash and in date at its checks, which were made within 120 seconds of the ticket's issue |
| TwoPersonRule.TwoPeopleApproved | control-plane/src/hermes_control_plane/main.py:3906-3920 | in every run a start of a contract operation that is planned CRITICAL consumed the approvals of two different people, neither the requester, and a start of any other consumed one |
| TwoPersonRule.ApprovedTakes | control-plane/src/hermes_control_plane/main.py:2429-2438 | an approval makes a CRITICAL ChangeSet APPROVED exactly if the approvals of two people stand, and any other exactly if one does |
| TwoPersonRule.OneStandingApprovalPerPerson | control-plane/src/hermes_control_plane/main.py:2407-2412 | in every run nobody has two approvals of one ChangeSet that stand at the same time |
| Safety.StartsCarryThePlannedPlan | control-plane/src/hermes_control_plane/main.py:3877-3935 | operation jobs and executions start exactly the plan that was hashed, key order aside, on a target as planned, whatever was rewritten in between |
| Safety.DecisionAbortsStart | control-plane/src/hermes_control_plane/main.py:2459-2476 | a rejection or cancellation between the checks and the writes of a start makes it abort if approval is needed, and not otherwise |
| Safety.JobLeavesReadyOnce | control-plane/src/hermes_control_plane/main.py:4570-4576 | in every run a job that has left READY is never READY or waiting again |
| Policy.StaleIsNeverApproved | control-plane/src/hermes_control_plane/main.py:2196-2201 | in every run a ChangeSet of an older policy is neither approved nor up for approval |
| Policy.OldPolicyIsOver | control-plane/src/hermes_control_plane/db.py:661-675 | in every run, once the generation is past g, no approval of g is issued and no request of g passes its checks, and only requests that were in flight at that point still consume approvals of g or start its ChangeSets |
| DelayedStarts.DelayedWriteIff | control-plane/src/hermes_control_plane/main.py:4655-4667 | in every run a checked start can write later exactly if its job is there and no rejection, cancellation, policy change over an undecided or stale ChangeSet, or other start settled one of its approvals |
| DelayedStarts.BumpAbortsStartIff | control-plane/src/hermes_control_plane/db.py:666-673 | in every run a policy change stops a checked start exactly if it has approvals to spend and its ChangeSet is undecided or stale |
| DelayedStarts.StartsAreTimely | control-plane/src/hermes_control_plane/main.py:3959-4009 | in every run the checks of a job start pass only with the ticket of the latest authorization, within 120 seconds of it and before any approval or the ChangeSet expires; a start in one block is committed at that time |
| DelayedStarts.SecondStartIff | control-plane/src/hermes_control_plane/main.py:4655-4663 | after one start of a job another can write exactly if it could before and shares no approval with it |
| DelayedStarts.SecondStartWasInFlight | control-plane/src/hermes_control_plane/main.py:4638-4667 | in every run the second of two starts of a job is a delayed write whose request was in flight when the first was committed |
| Witnesses.OldApprovalIsSpent | control-plane/src/hermes_control_plane/main.py:878-887 | a run: a start is checked, its ChangeSet expires, the policy changes, and the write spends the old policy's approval |
| StartOnce.StartsAtMostOnce | control-plane/src/hermes_control_plane/main.py:2541-2544 | in every run a ChangeSet that needs approval starts at most once, by operation job, provider job or directly, if every live preview of it ends before its approval or once it is past its expiry or its policy |
| SecondStarts.SecondStartAfterPreviewIff | control-plane/src/hermes_control_plane/main.py:2541-2544 | for every HIGH operation there is a run that starts a ChangeSet twice, with late previews ending in a given state, exactly if that state is none of PLANNED, PREVIEWED, AWAITING_APPROVAL, EXPIRED and STALE_POLICY |
| SecondStarts.OneJobStartsTwice | control-plane/src/hermes_control_plane/main.py:4655-4667 | a run for every HIGH operation: a job is approved and checked, a live preview ends, the approval runs out, the job is approved and checked again, and both requests are written, each with its own approval |
| Policy.MutationsConsumeApprovals | control-plane/src/hermes_control_plane/main.py:3845-3849 | in every run a start of a mutation whose planned name has no read prefix consumed at least one approval |
| Policy.UncheckedWritesKeepAccountsIff | control-plane/src/hermes_control_plane/main.py:2600-2605 | writes without a row count check keep the accounting exactly if every approval is still unspent |
| Agents.Desk.BeatHeart | control-plane/src/hermes_control_plane/main.py:1219-1234 | a heartbeat is taken exactly once per nonce of an active agent |
| Agents.Desk.IssueTask | control-plane/src/hermes_control_plane/main.py:1259-1313 | a task is issued exactly for an active agent and an authorized ChangeSet of the current policy, signed, with that ChangeSet's policy and plan hash, and for no longer than it lives |
| Agents.Desk.ClaimTask | control-plane/src/hermes_control_plane/main.py:1327-1376 | a claim goes through exactly for the agent's own task, in date, as it was signed, under its own generation and plan hash, with a new nonce; a refused task ends as expired, stale or invalidated, or stays as it was |
| Agents.Desk.CompleteTask | control-plane/src/hermes_control_plane/main.py:1379-1396 | a task is completed exactly by its own agent after it was claimed |
| Agents.TaskIsClaimedOnce | control-plane/src/hermes_control_plane/main.py:1327-1376 | in every run a task is claimed at most once, by its own agent, under its own policy generation and plan hash |
| Agents.TaskIsCompletedOnce | control-plane/src/hermes_control_plane/main.py:1379-1396 | in every run a task is completed at most once, by its own agent |
| Agents.NonceIsAcceptedOnce | control-plane/src/hermes_control_plane/db.py:221-224 | in every run a nonce of an agent is accepted at most once, heartbeats and claims together |
| Hubble.History.PersistBatch | control-plane/src/hermes_control_plane/main.py:3379-3413 | of the first 200 events each accepted new fingerprint is inserted once, as it was received, then the cluster is trimmed |
| Hubble.BatchKeepsSound | control-plane/src/hermes_control_plane/main.py:3410-3413 | after any batch every cluster has at most 2000 rows with different fingerprints, and other clusters keep theirs |
| Hubble.TopOfTop | control-plane/src/hermes_control_plane/main.py:3410-3413 | trimming early never changes what later trimming keeps |
| Hubble.HistoryIsNewestOfLog | control-plane/src/hermes_control_plane/main.py:3379-3413 | in every run in which no dropped fingerprint recurs, the rows are the newest 2000 of everything ever inserted |
| Hubble.KeptAreNewest | control-plane/src/hermes_control_plane/main.py:3410-3413 | where a row of a cluster is dropped 2000 are kept, every one of them newer, by time and then id |
| ExecutionPlugin.ExecutionPolicy.PreToolCall | plugins/stack-execution-policy/__init__.py:207-226 | a prompt is shown exactly for a matching prepared operation of the caller's own session and user |
| ExecutionPlugin.ExecutionPolicy.PostApprovalResponse | plugins/stack-execution-policy/__init__.py:229-239 | the answer goes to the operation waiting under that rule, or nowhere |
| ExecutionPlugin.ExecutionPolicy.BeginExecution | plugins/stack-execution-policy/__init__.py:163-183 | the broker is reached exactly for an approved operation of the caller's own session and user in an allowed context, with the sealed capability and digest, and the operation is consumed first |
| ExecutionPlugin.OneAddressed | plugins/stack-execution-policy/__init__.py:222-239 | a rule key addresses at most one operation |
| ExecutionPlugin.PromptIsAnswered | plugins/stack-execution-policy/__init__.py:222-239 | the answer to a prompt, with the prefix of plugin rules or without, reaches the operation the prompt was shown for |
| ExecutionPlugin.OperationRunsOnceAfterApproval | plugins/stack-execution-policy/__init__.py:145-239 | in every interleaving each operation is prompted, answered and called at most once and in this order, and called only after "once" |
| ExecutionPlugin.CallHasApproval | plugins/stack-execution-policy/__init__.py:164-239 | behind every broker call stands an earlier "once" to the operation's own rule, its one prompt, and its preparation in the same session, by the same user and with the same capability and digest |
| PackagePlugin.PackagePolicy.PostApprovalResponse | plugins/stack-package-policy/__init__.py:143-149 | an answer is also taken after an approval |
| PackagePlugin.PackagePolicy.BeginInstall | plugins/stack-package-policy/__init__.py:102-108 | the installer is reached exactly for an approved operation of the caller's own session in an allowed context, with the exact package and version, and the operation is removed first |
| PackagePlugin.OneAddressed | plugins/stack-package-policy/__init__.py:135-149 | a rule key addresses at most one operation |
| PackagePlugin.PromptIsAnswered | plugins/stack-package-policy/__init__.py:135-149 | the answer to a prompt reaches the installation the prompt was shown for |
| PackagePlugin.InstallationRunsOnceAfterApproval | plugins/stack-package-policy/__init__.py:67-149 | in every interleaving each installation is prompted and run at most once, and run only if every answer was "once" and there was one, in the session and with the package and version that were prepared |
| PackagePlugin.OtherAnswerPreventsInstall | plugins/stack-package-policy/__init__.py:143-149 | any other answer taken before the installation rules it out for good |
| Mirror.Sha256Path | control-plane/src/hermes_control_plane/artifact_mirror.py:1087-1099 | the digest and size of the file's bytes within the limit, or nothing |
| Mirror.CopyStream | control-plane/src/hermes_control_plane/artifact_mirror.py:1102-1116 | success means that the file holds the source's bytes and the digest is theirs; every intermediate state differs at the temporary file only |
| Mirror.ExecuteBlob | control-plane/src/hermes_control_plane/artifact_mirror.py:1212-1286 | at every step the destination is as before or holds the pinned bytes; success implies the pinned digest; a differing destination is never changed without replace_existing; a hit writes nothing; without an I/O error MIRRORED holds exactly if the source has the pinned digest |
| Mirror.ExecuteGitRelease | control-plane/src/hermes_control_plane/artifact_mirror.py:410-491 | the same, and success implies that tag and fetched commit are the pinned one |
| Mirror.ExecuteAnsibleCollection | control-plane/src/hermes_control_plane/artifact_mirror.py:760-841 | the same, and success implies a valid collection archive |
| Mirror.MirrorTwice | control-plane/src/hermes_control_plane/artifact_mirror.py:1218-1233 | run again after MIRRORED: ALREADY_MIRRORED without an I/O error, and nothing written |
| Mirror.CollectionTwice | control-plane/src/hermes_control_plane/artifact_mirror.py:786-797 | the same of a collection |
| Mirror.GitReleaseTwice | control-plane/src/hermes_control_plane/artifact_mirror.py:438-448 | the same of a Git release, whatever Git reports the second time |
| Snapshot.Swap | control-plane/src/hermes_control_plane/artifact_mirror.py:965-978 | the moves and their undoing keep the old tree at destination or backup until the staged tree is in place |
| Snapshot.CleanUp | control-plane/src/hermes_control_plane/artifact_mirror.py:979-988 | the way out, each part of which may fail, keeps that too and restores the old tree to an empty destination |
| Snapshot.ExecuteRepositorySnapshot | control-plane/src/hermes_control_plane/artifact_mirror.py:872-1010 | at every step, with any failure or crash, the old tree is intact at the destination or the backup path, or the destination holds a validated tree with the marker for the pinned digest; MIRRORED means the pinned archive's tree with that marker, and without an I/O error a publishable archive, and no other, is mirrored |
| Snapshot.SnapshotTwice | control-plane/src/hermes_control_plane/artifact_mirror.py:900-920 | run again after MIRRORED: ALREADY_MIRRORED without an I/O error, and nothing written |
| OciMirror.ExecuteOci | control-plane/src/hermes_control_plane/artifact_mirror.py:494-601 | from registry to registry: a success means that tag and digest reference resolve to the pinned manifest; a tag of another manifest is never moved without replace_existing; nothing but the tag and digest references of the destination changes; without a failed command MIRRORED holds exactly if the source offers the pinned manifest and the tag is vacant, and ALREADY_MIRRORED exactly if both resolve already |
| OciMirror.OciTwice | control-plane/src/hermes_control_plane/artifact_mirror.py:543-553 | run again after MIRRORED: nothing written, and ALREADY_MIRRORED exactly while the source is still offered |
| MirrorRecord.Execute | control-plane/src/hermes_control_plane/artifact_mirror.py:1154-1212 | only a governed plan with an exact digest and supported schemes is run, by the runtime for its kind and schemes; without a failure, with room at the destination and the source within the limit, it ends MIRRORED exactly if what is offered is the pinned release, collection, repository or file, and ALREADY_MIRRORED where that is there already; a success leaves the pinned content; nothing else is changed |
| MirrorRecord.PassIffMirrored | control-plane/src/hermes_control_plane/main.py:4614-4615 | the checks that the runtimes report sum up to PASS exactly if the run ended MIRRORED or ALREADY_MIRRORED |
| MirrorRecord.ArtifactTable.Record | control-plane/src/hermes_control_plane/main.py:4705-4709 | the row counts as mirrored exactly if the run recorded last was a success |
| MirrorRecord.ArtifactTable.MirrorArtifact | control-plane/src/hermes_control_plane/main.py:4700-4709 | from run to row, for every kind: the row counts as mirrored exactly after a success, so exactly under those conditions, and then the pinned content is at its destination |
| MirrorRecord.ReadyEntriesWereMirrored | control-plane/src/hermes_control_plane/cluster_factory.py:245-248 | for every entry of a READY manifest over the table's rows, the run recorded last was a success and left the content pinned by the entry's digest at its offline reference: file, tree, or tag and digest reference in a registry |

## Left out

- HTTP routing, bearer tokens, role checks and request validation: a caller's role and input shape are taken as given, so the status codes of refusals are not distinguished.
- SQLite and JSON column packing: tables are maps of records, a handler's block is one step, and a block that raises changes nothing. One block sees one clock reading.
- Columns that no modelled check reads: timestamps of updates, decision reasons, execution reports, operation plan states, event and audit rows other than starts.
- A stored plan text that no longer parses: the source raises before any write, as it does when the plan's hash does not match.
- Provider job transitions, retries, resumes, authorization and deletion: arbitrary rewrites of provider job rows (the event `Environment`), since they consume no approvals. A provider job start checks no plan hash, so the plan it carries is the stored one.
- The PXE and blueprint artifact manifests resolved again at start time: their outcome is a parameter.
- Live preview up to its final write: it reads only, apart from the lazy expiry.
- ControlPlane.ControlPlane.ExecuteChangeset: one block, since the source does not check the row count of its update; see `Policy.UncheckedWritesKeepAccountsIff` for the split.
- Floats, non-string keys, the equality of `True` and `1` in Python dictionaries, and surrogate escapes in JSON text.
- BoundPlan.BindReady: a schema version that is not a number counts as 0 and a provider payload that is not a dictionary as empty; the source converts or rejects those, and no plan builder writes them.
- Lower-casing outside ASCII in the risk classifier.
- URL parsing errors: `parse` is total. Version strings, identifiers and package specifications are checked by regular expressions that are not modelled.
- OciMirror.ExecuteOci: which names are tags, semantic versions and allowed repositories, and what makes a manifest a chart's, are arbitrary functions; other clients of the registries are not modelled, and layers are not told apart from their manifest.
- Parent directories, file modes and temporary directories of Git runs are not part of the file system.
- Snapshot.ExecuteRepositorySnapshot: the staging container and the staged tree are separate paths beside the destination.
- Agent capabilities, connection modes and envelope contents other than generation and plan hash.
- The shape of flow events: whether an event is accepted is part of the event. Summary snapshots of a batch are not stored.
- Broker cancellation calls and the text of messages in the plugins; the blocks on raw package-manager commands and on writes to managed targets.
- Release scripts, catalogs, the UI, backups and the Docker sandbox.
