# Model control plane: a verification model

The system is a controller for AI models that run in containers on several nodes, together with
the agents on those nodes and an adapter to docker. The controller keeps a table of runtime
instances. It reconciles them (precheck, conflicts, gating, lifecycle plan), hands out tasks, lets
agents report on them, and starts and stops models under a mutual-exclusion scheduler. This
project models those parts in Dafny and proves what they keep over whole runs.

## How the model is laid out

- `Text`, `Wrappers`: trimming, splitting and joining; options.
- `Ports`, `Volumes`: the readers of port mappings and of volume bindings, and when they agree.
- `RuntimeTypes`, `Conflict`, `Gating`, `Decisions`, `Reconcile`: the instance record and the
  decisions made about one instance. The conflict and gating builders are methods over lists,
  proved against a plain concatenation and a fold.
- `PortClashes`: from two port mappings that docker binds to the conflict that is reported.
- `InstanceLaws`: what a reconcile, a report, a release and a sync keep of one instance.
- `ReadinessLaws`, `ReportLaws`, `ConflictVerdict`, `RequestLaws`: exactly when an instance is ready
  after a reconcile or a sweep, what each kind of agent report leaves, when a conflict blocks and a
  load is granted, and what a task request and a model sync come to, all in
  terms of the records' own fields.
- `InstanceTable`, `InstanceOrder`, `ControlRuns`, `ControlInvariant`, `ControlTheorems`,
  `ControlRefusals`: the table, the controller's steps as atomic transitions, their invariant, and
  the theorems about runs.
- `ConflictRepeats`: how often a conflict list names one reason.
- `ControlWitnesses`: runs that show a grant given, the exclusion of grants broken by a sync, and a
  gate opened by a sync.
- `ReconcileSteps`, `RuntimeObjectService`, `RuntimeTasks`: the service as classes that update
  their maps in place. Every method is proved to make the table transition of the same name.
- `InstanceRow`: the stored row of an instance and the round trip through it.
- `TaskProtocol`, `TaskStore`: the task table with interleaved claims, reports and patches; the
  same operations as methods of a store, and the executor of runtime tasks.
- `Scheduling`, `SchedulerRuns`, `ModelActions`: the scheduler, interleaved actions under it, and
  the action as code.
- `PrecheckVerdict`, `PrecheckTask`: the agent's verdict and its precheck task.
- `FailedPrecheck`: the agent's precheck and the controller's gate put together.
- `TaskContext`: resolving the context of an agent task and writing it back.
- `Docker`, `DockerAdapter`: container ownership and the adapter's four operations on a daemon
  that may fail any call.
- `ModelMerge`: merging found and stored models.

Times are natural numbers and 0 is the zero time. Identifiers are canonical: trimmed, with one
spelling each. The clock, the set of online agents, the registered models and the answers of
runtimes and of docker are inputs of a step or nondeterministic results.

## What the model shows about the code

- A summary query is not read-only. It leaves the queried instance alone and sends the same
  unload plans to other instances that a reconcile would (`ControlRuns.QueryFrame`).
- Ids of new instances fold the model id. Two model ids can fold to one instance id, and
  registering the second replaces the row of the first, its gate included; a start of the first
  is then stored (`ControlRefusals.CollidingSyncOpensGate`, with the run in
  `ControlWitnesses.CollidingSyncStartsGatedModel`). These collisions and clearing
  prechecks are the only ways a gate is lifted (`ControlTheorems.StepKeepsGateIff`).
- A model sync can move an instance to another node without deciding its plan anew. It keeps the
  exclusion of idle load grants exactly when it moves no granted instance into the slot of another
  grant (`ControlInvariant.SyncKeepsInvariantIff`, with a failing run in
  `ControlWitnesses.MovingSyncBreaksExclusion`).
- The sweep reconciles copies taken before its loop, yet equals a sequence of single reconciles,
  because copies go stale only in the plan, which a reconcile overwrites
  (`RuntimeObjectService.Service.RunInstanceReconcileOnce`).
- Actions lock their node, not their group. The scheduler keeps a group exclusive over all runs
  exactly when the group does not span two nodes (`SchedulerRuns.ExclusiveIffNodeLocal`).
- A report of status pending, or of no status from a snapshot that was pending, puts a task that
  was handed out back in the queue (`TaskProtocol.StepKeepsHandoutsIff`,
  `TaskProtocol.PendingReportHandsOutAgain`).
- The port validator accepts a plus sign. Docker is then asked for `+80`, the agent checks the
  container port and the endpoint inference finds nothing; for unsigned ports all readers agree
  (`Ports.ReadersAgreeIffUnsigned`). The agent's URL branch cannot be reached: the text is cut at
  its first slash before the prefix is looked for (`Ports.NoUrlSurvivesTheCut`).
- The duplicate test of the conflict list compares before the owner is filled in, so an own reason
  can be listed twice. It is exactly when the manifest and the agent's precheck forbid the same
  thing (`ConflictRepeats.ReconcileRepeatsIff`); the gating fold drops the repeats.
- An instance that has never been judged comes back from its row with unknown statuses instead of
  blank ones; every other decision field is restored (`InstanceRow.RowRoundTripIff`).
- Writing a task context back trims the keys of the nested copy, which can reveal a field that was
  not read before (`TaskContext.ProjectionIff`, `TaskContext.PaddedKeyIsRevealed`).
- Found models that share an id are not merged with each other: stored ones go into the last of
  them, and the order among them after sorting is not fixed (`ModelMerge.MergeModels`).

## Model

| member | source | states |
|---|---|---|
| Ports.ValidatedMappingIsBindable | src/pkg/service/runtime_template_service.go:304-333 | every mapping the validator stores can be bound by the adapter, with the host port the conflict detector compares |
| Ports.ReadersAgreeIffUnsigned | src/pkg/adapter/dockerctl/adapter.go:1262-1291 | on validated mappings adapter, conflict detector, endpoint inference and agent see one host port exactly when it is all digits |
| Ports.SignedHostPortSplitsTheReaders | src/cmd/agent/main.go:1448-1480 | the whole failing family: with a plus sign the readers see three different things |
| Ports.DigitMappingIsAccepted | src/pkg/service/runtime_template_service.go:304-333 | two port numbers in digits make a mapping a template may store |
| Ports.NoUrlSurvivesTheCut | src/cmd/agent/main.go:1453-1460 | for every mapping: the text the agent looks at has no URL prefix, so its URL branch is never taken |
| Ports.AddressedMapping | src/cmd/agent/main.go:1448-1480 | conflict detector, agent and endpoint inference read one host port from a mapping with an address in front, which the validator refuses |
| Ports.ExtractRuntimeHostPorts | src/pkg/service/runtime_object_service.go:1263-1289 | the loop collects exactly the non-blank host ports, in order |
| Volumes.RoundTripIff | src/pkg/adapter/dockerctl/adapter.go:1034-1061 | exactly when splitting a joined binding gives its three parts back, for any host path, colons included |
| Volumes.ValidatedVolumeSplits | src/pkg/service/runtime_template_service.go:275-302 | an accepted volume splits into the validated host and an absolute container path |
| Volumes.ValidatedVolumeSurvivesNormalisation | src/pkg/adapter/dockerctl/adapter.go:372-413 | splitting and joining again keeps an accepted volume's host and container |
| Volumes.AbsoluteVolumeIsAccepted | src/pkg/service/runtime_template_service.go:275-302 | a host and an absolute container path make a volume a template may store |
| Volumes.VolumeWithModeIsAccepted | src/pkg/service/runtime_template_service.go:275-302 | so do they with a mode |
| Conflict.CollectPeers | src/pkg/service/runtime_object_service.go:951-1014 | over a listing of distinct ids the guarded append loses and repeats nothing: the loop yields all peers' reasons in order |
| Conflict.CollectReasons | src/pkg/service/runtime_object_service.go:901-1058 | the whole collection equals the plain concatenation of drift, peer, policy, offline and stale reasons |
| Conflict.EvaluateConflictSummary | src/pkg/service/runtime_object_service.go:889-1082 | status and blocking follow from the reasons: clear, warning, blocked |
| ConflictRepeats.NoReasonTwiceIff | src/pkg/service/runtime_object_service.go:902-927 | for any listing: the conflict list names every (code, instance) once exactly when the instance is told off at most once under each of the two policy codes, by its manifest and its precheck together |
| ConflictRepeats.RepeatedOwnReason | src/pkg/service/runtime_object_service.go:1016-1045 | the witness, for both codes: an own policy reason is listed exactly as often as the instance is told off, so twice when manifest and precheck agree |
| ConflictRepeats.PrecheckCodesAreDistinct | src/pkg/service/runtime_object_service.go:804-850 | the precheck codes a reconcile hands to the conflict evaluation are distinct |
| ConflictRepeats.ReconcileRepeatsIff | src/pkg/service/runtime_object_service.go:889-1058 | the conflicts of a reconcile name a reason twice exactly when the manifest forbids what the agent's precheck forbids too |
| Conflict.ConflictMutexIff | src/pkg/service/runtime_object_service.go:986-1004 | the slot conflict names exactly the rivals, and only to an idle instance that wants to load, whatever the order of the listing |
| Conflict.PortConflictIff | src/pkg/service/runtime_object_service.go:966-984 | the port conflict names exactly the others on the node that occupy a slot and share a host port, and blocks exactly when the instance wants to load |
| PortClashes.BoundPortClashIsReported | src/pkg/service/runtime_object_service.go:951-984 | two templates that make docker bind one host port of a node are reported to conflict |
| ConflictVerdict.ConflictVerdictExact | src/pkg/service/runtime_object_service.go:889-1082 | a conflict blocks exactly when a neighbour with a claim blocks the load by port, slot or model, the binding does what is forbidden, or there is no word from the agent; clear exactly when there is not even a drift or a shared port |
| ConflictVerdict.GatingVerdictExact | src/pkg/service/runtime_object_service.go:1084-1146 | allowed exactly when allowed, deferred exactly when refused while somebody holds the slot or the precheck names a slot conflict, else blocked |
| ConflictVerdict.IdleIsGrantedIff | src/pkg/service/runtime_object_service.go:1148-1198 | an instance that should run and does not is granted its load exactly when neither its precheck gates nor a conflict blocks |
| Gating.KeepReasons | src/pkg/service/runtime_object_service.go:1095-1123 | one loop of the fold keeps the first reason of each key and refuses a load exactly when a kept reason blocks |
| Gating.BuildRuntimeGatingSummary | src/pkg/service/runtime_object_service.go:1084-1146 | the method computes the gating decision of the fold |
| Gating.KeptIff | src/pkg/service/runtime_object_service.go:1095-1123 | a reason survives the fold exactly when it has a code and is the first of its (code, instance) key |
| Gating.KeptKeysAreDistinct | src/pkg/service/runtime_object_service.go:1095-1123 | kept reasons have pairwise distinct keys |
| Gating.GatingMeaning | src/pkg/service/runtime_object_service.go:1084-1146 | under the agent's guarantee a load is refused exactly when the precheck gates or some conflict blocks; nothing else is refused |
| Gating.GatingMeaningForAnyPrecheck | src/pkg/service/runtime_object_service.go:1084-1146 | without the guarantee: also when a blocking precheck reason is the first of its key |
| Gating.ReleaseTargetIff | src/pkg/service/runtime_object_service.go:1226-1239 | release targets are exactly the named instances of slot conflicts |
| Gating.PlanClassification | src/pkg/service/runtime_object_service.go:1148-1198 | completed without target, planned iff allowed, deferred iff refused with someone to release, blocked iff refused with nobody; stop and unload are never refused; only a planned load or unload asks for a task, and for that of its kind |
| Gating.RefusedPlanNamesBlockers | src/pkg/service/runtime_object_service.go:1211-1224 | a refused plan names exactly the codes of the reasons that block |
| Decisions.SettledIsStored | src/pkg/service/runtime_object_service.go:1822-2003 | saving and loading leave an instance alone whose fields agree with its summaries |
| Decisions.SaveFillsSummaries | src/pkg/service/runtime_object_service.go:1904-2003 | a save makes missing summaries of flat fields that say anything, with their status, verdict and codes, and leaves those that are there alone |
| Decisions.LoadKeepsVerdicts | src/pkg/service/runtime_object_service.go:1822-1902 | loading keeps a gate, a blocking conflict and a permission found in either the field or the summary, and every recorded code |
| Decisions.MergeConditionCodes | src/pkg/service/runtime_object_service.go:804-850 | codes turned into reasons and back are the same codes |
| InstanceLaws.ReconcileKeepsSound | src/pkg/service/runtime_object_service.go:442-747 | a reconcile keeps fields and summaries in agreement, place, gate and the agent's guarantee, and a gated instance not ready |
| InstanceLaws.ReadyMeansRunning | src/pkg/service/runtime_object_service.go:619-675 | right after a reconcile an instance desired running or stopped is ready only if desired and observed running |
| InstanceLaws.RefusedIff | src/pkg/service/runtime_object_service.go:549-588 | when exactly a reconcile refuses a load |
| InstanceLaws.FlatCodesBlock | src/pkg/service/runtime_object_service.go:749-802 | failure codes kept without their reasons count as blocking reasons; an unknown status becomes a warning and a failed one gates |
| InstanceLaws.TargetMeaning | src/pkg/service/runtime_object_service.go:852-869 | what a reconcile aims at follows from its trigger, and without one from desired against observed |
| InstanceLaws.AgentConflictsExact | src/pkg/service/runtime_object_service.go:516-547 | a reconcile reports an offline agent, or stale observations, exactly to who asks to load where an agent is known: the agent is offline, the last word is older than the limit, or there was none and the instance should run |
| InstanceLaws.GatedIsRefused | src/pkg/service/runtime_object_service.go:549-588 | a gated instance is refused every start and restart, whatever its reasons look like |
| InstanceLaws.IdleGrantMeansFreeSlot | src/pkg/service/runtime_object_service.go:1311-1329 | a load is planned for an idle instance only when no other instance occupies its slot |
| InstanceLaws.ReleaseTargetsExact | src/pkg/service/runtime_object_service.go:955-1014 | release targets are exactly the rivals when an idle instance is refused a load, otherwise none |
| InstanceLaws.DeferredIffRival | src/pkg/service/runtime_object_service.go:1148-1198 | plan status in terms of target, refusal and rivals, for any listing |
| InstanceLaws.PlanFollowsTarget | src/pkg/service/runtime_object_service.go:852-887 | a plan is a load exactly for what would load, an unload exactly on a stop request or for what runs and should not, else nothing; an unload is always planned, and a planned one asks for the task that goes with it |
| InstanceLaws.ReleaseKeepsSound | src/pkg/service/runtime_object_service.go:1331-1377 | a release target gets a planned unload, loses its load grant and keeps everything else |
| InstanceLaws.ReportFrame | src/pkg/service/runtime_object_service.go:1379-1631 | what an agent report can and cannot touch; a gating precheck leaves the instance not ready |
| InstanceLaws.ReportKeepsSound | src/pkg/service/runtime_object_service.go:1490-1631 | a stored report leaves a sound instance; only a precheck moves the gate, and which way |
| InstanceLaws.NewInstanceIsSound | src/pkg/service/runtime_object_service.go:2260-2422 | a freshly synced instance is sound, without plan and without gate |
| InstanceLaws.SyncKeepsSound | src/pkg/service/runtime_object_service.go:2260-2422 | a sync of a known instance keeps it sound and every decision about it |
| ReadinessLaws.PhasesAfterReconcile | src/pkg/service/runtime_object_service.go:442-515 | which desired and observed state a reconcile leaves |
| ReadinessLaws.ReconcileTouchesOnly | src/pkg/service/runtime_object_service.go:442-747 | what a reconcile leaves alone, and which ports it fills in |
| ReadinessLaws.ReadinessExact | src/pkg/service/runtime_object_service.go:621-675 | a reconcile leaves an instance ready exactly if it was, no load is refused, it is not wanted stopped, and it runs if it is wanted running; and exactly when readiness stays unknown |
| ReadinessLaws.SweepReadinessExact | src/pkg/service/runtime_object_service.go:354-401 | over a whole sweep a swept row is ready exactly if it was, is not wanted stopped, and runs if it is wanted running |
| ReadinessLaws.SweepOfAllRows | src/pkg/service/runtime_object_service.go:354-401 | the same of the sweep over all rows |
| ReportLaws.DockerReport | src/pkg/service/runtime_object_service.go:1594-1611 | a missing container is stopped and never ready, one that is only there is loaded and not ready, a running one is ready exactly if not reported unready and the gate is open |
| ReportLaws.ReadinessReport | src/pkg/service/runtime_object_service.go:1556-1573 | a readiness check makes ready exactly if it says so, or succeeds without saying, and the gate is open |
| ReportLaws.CheckReport | src/pkg/service/runtime_object_service.go:1574-1593 | a failing port or path check makes not ready, a succeeding one says nothing |
| ReportLaws.CheckedPortIsKept | src/pkg/service/runtime_object_service.go:1574-1580 | a checked port joins the ports of the instance |
| ReportLaws.ReportedPorts | src/pkg/service/runtime_object_service.go:1379-1489 | ports a report names replace those of the instance |
| ReportLaws.SilentReport | src/pkg/service/runtime_object_service.go:1594-1625 | a snapshot, or a docker action that found out nothing, leaves states alone |
| ReportLaws.PrecheckReport | src/pkg/service/runtime_object_service.go:1490-1555 | a precheck leaves its own status and gate, a closed gate makes not ready, no state is observed |
| ReportLaws.PrecheckReportCodes | src/pkg/service/runtime_object_service.go:1490-1555 | the codes a precheck leaves are exactly those of its reasons, or the failures a bare failure lists |
| ReportLaws.NamedStateIsObserved | src/pkg/service/runtime_object_service.go:1626-1631 | a state the report names overrides whatever was found |
| ReportLaws.MissingContainerIsLoadedAgain | src/pkg/service/runtime_object_service.go:1379-1643 | a missing container of an instance that should run leaves it stopped and not ready, with a load as its next plan |
| ReportLaws.RunningContainerIsDone | src/pkg/service/runtime_object_service.go:1379-1643 | a running container behind an open gate leaves it running, ready unless reported unready, and nothing left to do |
| InstanceTable.Listing | src/pkg/service/runtime_object_service.go:183-208 | a listing names every row once, in id order |
| InstanceTable.InsertKeepsSorted | src/pkg/service/runtime_object_service.go:206 | a new id lands where a sorted listing expects it |
| InstanceTable.ReconcileKeepsWellformed | src/pkg/service/runtime_object_service.go:403-428 | a reconcile neither adds nor removes rows |
| ControlRuns.ReleasesExactly | src/pkg/service/runtime_object_service.go:614-619 | who a reconcile sends an unload plan to |
| ControlRuns.ReconcileFrame | src/pkg/service/runtime_object_service.go:403-428 | a reconcile changes its own row and its release targets' plans, and nothing else |
| ControlRuns.QueryFrame | src/pkg/service/runtime_object_service.go:430-440 | a summary query leaves its own row alone and changes the release targets' plans |
| ControlInvariant.SyncKeepsInvariantIff | src/pkg/service/runtime_object_service.go:2185-2198 | a sync keeps the exclusion of grants exactly when it moves no granted instance into another grant's slot |
| ControlInvariant.ReconcileKeepsInvariant | src/pkg/service/runtime_object_service.go:442-747 | a reconcile keeps the run invariant, deciding its own grant anew |
| ControlInvariant.SweepKeepsInvariant | src/pkg/service/runtime_object_service.go:354-401 | so does a sweep |
| ControlInvariant.QueryKeepsInvariant | src/pkg/service/runtime_object_service.go:430-440 | so does a summary query |
| ControlInvariant.ReportKeepsInvariant | src/pkg/service/runtime_object_service.go:1379-1643 | so does an agent report with its reconcile |
| ControlInvariant.CreateTaskKeepsInvariant | src/pkg/service/task_service.go:119-248 | so does a task request with its reconcile |
| ControlInvariant.StepKeepsBase | src/pkg/service/runtime_object_service.go:354-440 | every step keeps the table well formed, all rows sound and models unique, whatever syncs do |
| ControlInvariant.StepKeepsInvariant | src/pkg/service/runtime_object_service.go:354-440 | every step keeps the whole invariant unless a sync moves an instance into a granted slot |
| ControlTheorems.OneIdleGrantPerSlot | src/pkg/service/runtime_object_service.go:889-1198 | over all runs at most one instance per node and known kind holds a load plan granted while it was not observed running |
| ControlTheorems.FixedPlacesStay | src/pkg/service/runtime_object_service.go:2185-2198 | syncs that move no instance meet the condition on syncs in every run |
| ControlTheorems.OneIdleGrantPerSlotWhenPlacesAreFixed | src/pkg/service/runtime_object_service.go:889-1198 | with node and manifest fixed per instance the exclusion needs no further condition |
| ControlTheorems.GatedIsNeverReady | src/pkg/service/runtime_object_service.go:1551-1631 | in every reachable state a gated instance is not ready |
| ControlTheorems.ReconcileSettlesReadiness | src/pkg/service/runtime_object_service.go:621-675 | a reconcile makes its row ready only if running and breaks that of no other row |
| ControlTheorems.SweepSettlesReadiness | src/pkg/service/runtime_object_service.go:354-401 | after a sweep every swept row is ready only if running |
| ControlTheorems.StepKeepsGateIff | src/pkg/service/runtime_object_service.go:1490-1555 | a gated instance stays gated through every step except a clearing precheck and a colliding sync, and those lift the gate |
| ControlTheorems.GatedTaskIsRefused | src/pkg/service/task_service.go:206-248 | a start or restart of a gated model is not stored |
| ControlTheorems.GatedStepStartsNothing | src/pkg/service/task_service.go:119-199 | no step of any kind stores a start or restart of a gated model |
| ControlTheorems.GateHolds | src/pkg/service/task_service.go:119-248 | over any run that lifts no gate the gate stays and no start or restart of the model is stored |
| ControlTheorems.PrecheckGatesUntilCleared | src/pkg/service/runtime_object_service.go:1490-1555 | from a gating precheck report on, after any history, no start or restart is stored until the gate is lifted |
| ControlRefusals.RefusalIsExact | src/pkg/service/runtime_object_service.go:749-802 | in every state reachable with guaranteed reports, refusal is exactly: would load, and the last precheck gates or a conflict blocks |
| ControlRefusals.GrantsRecorded | src/pkg/service/runtime_object_service.go:590-619 | the record of grants is exact: own grant decided anew, others kept as long as no release is sent to them |
| ControlRefusals.CollidingSyncOpensGate | src/pkg/service/runtime_object_service.go:2260-2267 | registering a model whose instance id is taken lets a start of the gated model through |
| ControlRefusals.FoldedIdsCollide | src/pkg/service/runtime_object_service.go:2654-2676 | three model ids with one instance id |
| ControlWitnesses.FirstReconcileGrants | src/pkg/service/runtime_object_service.go:852-869 | a lone idle model that wants to run is granted its load by its first reconcile |
| ControlWitnesses.MovingSyncBreaksExclusion | src/pkg/service/runtime_object_service.go:2313-2399 | a run from the empty table: two models of one kind are granted on two nodes with the invariant intact, then a sync of one onto the other's node puts both grants into one slot |
| ControlWitnesses.CollidingSyncStartsGatedModel | src/pkg/service/runtime_object_service.go:2260-2267 | a run from the empty table: a model's precheck gates and its start is refused; after a sync of another model whose id folds to the same, its start is stored |
| ControlWitnesses.BothRunsExist | src/pkg/service/runtime_object_service.go:2654-2676 | concrete models and a report that meet the premises of both runs |
| InstanceOrder.SortedUnique | src/pkg/service/runtime_object_service.go:206 | there is one sorted order of a set of ids |
| InstanceOrder.CollectedAll | src/pkg/service/runtime_object_service.go:199-208 | rows collected in any map order and sorted are the listing |
| ReconcileSteps.SettleReadiness | src/pkg/service/runtime_object_service.go:621-675 | the branches on readiness amount to the specified readiness |
| ReconcileSteps.ReconcileItem | src/pkg/service/runtime_object_service.go:442-747 | the field-by-field reconcile ends in the instance the laws are about |
| ReconcileSteps.ObserveFinding | src/pkg/service/runtime_object_service.go:1490-1625 | the branches per task type end in the specified observation |
| ReconcileSteps.ObserveReport | src/pkg/service/runtime_object_service.go:1379-1631 | the whole observation of a report |
| ReconcileSteps.MergeExisting | src/pkg/service/runtime_object_service.go:2313-2399 | merging a fresh instance with its predecessor keeps what was observed and decided |
| RuntimeObjectService.Service.ListRuntimeInstances | src/pkg/service/runtime_object_service.go:183-208 | walks the map in any order and returns the sorted listing |
| RuntimeObjectService.Service.GetRuntimeInstance | src/pkg/service/runtime_object_service.go:210-237 | finds exactly the stored rows |
| RuntimeObjectService.Service.GetRuntimeInstanceByModelID | src/pkg/service/runtime_object_service.go:239-254 | finds the model's first instance in listing order |
| RuntimeObjectService.Service.UpsertRuntimeInstance | src/pkg/service/runtime_object_service.go:2563-2575 | writes one row and keeps the rest |
| RuntimeObjectService.Service.ApplyReleasePlanToTargets | src/pkg/service/runtime_object_service.go:1331-1377 | every known target but the owner gets the unload plan, however often it is named |
| RuntimeObjectService.Service.ReconcileRuntimeInstanceInternal | src/pkg/service/runtime_object_service.go:442-747 | judges a copy, sends its releases, stores nothing else |
| RuntimeObjectService.Service.ReconcileRuntimeInstance | src/pkg/service/runtime_object_service.go:403-428 | makes the reconcile transition of the table and answers whether the action is allowed |
| RuntimeObjectService.Service.GetRuntimeInstanceReconcileSummary | src/pkg/service/runtime_object_service.go:430-440 | makes the query transition of the table |
| RuntimeObjectService.Service.RunInstanceReconcileOnce | src/pkg/service/runtime_object_service.go:354-401 | the sweep over stale copies is a sequence of single reconciles in id order |
| RuntimeObjectService.Service.ApplyAgentTaskObservation | src/pkg/service/runtime_object_service.go:1379-1643 | makes the report transition of the table |
| RuntimeObjectService.Service.SyncModelRuntimeObjects | src/pkg/service/runtime_object_service.go:2185-2198 | makes the sync transition of the table |
| RuntimeObjectService.PlanDoesNotMatter | src/pkg/service/runtime_object_service.go:442-747 | a reconcile does not look at its instance's own last plan |
| RuntimeTasks.TaskService.PrepareRuntimeTaskPlanContext | src/pkg/service/task_service.go:206-248 | reconciles the model's instance and admits unless a start is refused |
| RuntimeTasks.TaskService.CreateRuntimeTask | src/pkg/service/task_service.go:119-199 | makes the task-request transition, and stores nothing for a gated model |
| RequestLaws.RequestIsStoredIff | src/pkg/service/task_service.go:119-248 | a request is stored exactly unless it would start the runtime of a model whose instance, just reconciled for it, is refused its load |
| RequestLaws.RequestedPlan | src/pkg/service/task_service.go:206-248 | a start or restart plans a load, a stop plans an unload that is always granted, a refresh what the states ask for |
| RequestLaws.RequestPlans | src/pkg/service/runtime_object_service.go:403-428 | the row of the requested model then holds that plan |
| RequestLaws.SyncOfKnownModel | src/pkg/service/runtime_object_service.go:2313-2399 | a known instance takes what it should be and where it runs from the model and keeps what was observed of it |
| RequestLaws.SyncOfNewModel | src/pkg/service/runtime_object_service.go:2260-2312 | a new instance is all the model says, judged by nobody yet |
| RequestLaws.SyncTwiceIsOnce | src/pkg/service/runtime_object_service.go:2185-2198 | syncing the same view of a model again changes nothing |
| RequestLaws.SyncLeaves | src/pkg/service/runtime_object_service.go:2185-2198 | a sync writes one row, of the model's instance or of a new one, with what the model wants |
| InstanceRow.RowRestores | src/pkg/store/sqlite/store.go:851-1042 | persist, write, read and hydrate restore all decision fields, those without a column included |
| InstanceRow.RowRoundTripIff | src/pkg/store/sqlite/store.go:2004-2090 | the round trip is exact precisely for judged instances with known states |
| InstanceRow.ReconciledRoundTrips | src/pkg/service/runtime_object_service.go:1822-2003 | every reconciled instance round-trips |
| InstanceRow.SecondSaveSettles | src/pkg/store/sqlite/store.go:1941-2002 | what was read back, saved again, round-trips from then on |
| TaskProtocol.WrittenRowOk | src/pkg/service/task_service.go:1193-1268 | whatever snapshot a report or patch was made from, the row it writes is in order |
| TaskProtocol.EveryStoredRowIsOk | src/pkg/store/sqlite/store.go:1261-1316 | in every interleaving progress is in 0..100, a finished row is at 100 with both times, worker is blank or the assigned agent |
| TaskProtocol.StepKeepsHandoutsIff | src/pkg/store/sqlite/store.go:1383-1450 | the one step that breaks handing out once is a write that makes a handed-out task pending |
| TaskProtocol.EachTaskIsHandedOutOnce | src/pkg/store/sqlite/store.go:1383-1450 | with running or final reports an agent task is handed out at most once in every interleaving |
| TaskProtocol.PendingIsNotReentered | src/pkg/service/task_service.go:1193-1268 | under the same reports pending is left for good |
| TaskProtocol.PendingReportHandsOutAgain | src/pkg/service/task_service.go:1193-1268 | a run in which a pending report gets the task handed out twice |
| TaskProtocol.ClaimPossibleIff | src/pkg/store/sqlite/store.go:1383-1450 | some row is next to be claimed exactly when some row can be claimed |
| TaskProtocol.ClaimsComeInKeyOrder | src/pkg/store/sqlite/store.go:1383-1450 | claims in a row take different rows, in the order of their stored keys |
| TaskProtocol.PatchRaisesProgress | src/pkg/service/task_service.go:250-351 | patches never lower progress, and which status, times and progress each leaves |
| TaskProtocol.ReportRecords | src/pkg/service/task_service.go:1213-1264 | what an accepted report leaves: its own status if it names one, the agent, its times, and progress 100 and a finish time once finished |
| TaskProtocol.WriteRecords | src/pkg/service/task_service.go:1213-1264 | the same of the write half-step in every interleaving, on whatever row is there by then |
| TaskProtocol.FinalStatusWasGiven | src/pkg/service/task_service.go:1193-1268 | in every interleaving a task is a success, or finished otherwise, only if a report said so of it or the executor marked it so |
| TaskStore.Store.UpsertTask | src/pkg/store/sqlite/store.go:1261-1316 | clamps progress, turns a blank status pending, keeps the first creation time |
| TaskStore.Store.ClaimPendingTaskForAgent | src/pkg/store/sqlite/store.go:1383-1450 | claims a pending row of the agent with the least key and marks it dispatched to that agent, or none exactly when there is none |
| TaskStore.Store.PatchTask | src/pkg/service/task_service.go:1461-1475 | applies a patch to the stored row and nothing else |
| TaskStore.Store.ReportAgentTask | src/pkg/service/task_service.go:1193-1268 | accepts exactly reports for own or unassigned tasks; the stored row then has the status, worker, times and progress the report gives it, and no other row changes |
| TaskStore.ApplyReport | src/pkg/service/task_service.go:1213-1264 | the branches of a report end in the specified row, with the status the report names, else the task's own |
| TaskStore.Store.RunAttempts | src/pkg/service/task_service.go:278-320 | success exactly when the agent's attempt or the controller's own calls achieved the request |
| TaskStore.Store.ExecuteRuntimeTask | src/pkg/service/task_service.go:250-351 | the executor ends its row finished on every path: timed out iff the deadline passed, success iff some attempt succeeded in time |
| TaskStore.ReportIsReadThenWrite | src/pkg/service/task_service.go:1193-1268 | an uninterrupted report is its two half-steps in a row |
| TaskStore.PatchIsReadThenWrite | src/pkg/service/task_service.go:1461-1475 | so is an uninterrupted patch |
| Scheduling.Scheduler.CanRun | src/pkg/scheduler/scheduler.go:43-58 | refuses exactly when another model holds the group |
| Scheduling.Scheduler.MarkRunning | src/pkg/scheduler/scheduler.go:60-68 | the model holds its group afterwards, other groups keep their holders |
| Scheduling.Scheduler.MarkStopped | src/pkg/scheduler/scheduler.go:70-83 | the model holds its group no more and other holders stay |
| SchedulerRuns.StepKeepsOk | src/pkg/service/model_service.go:458-627 | with groups on one node each, every half-step keeps active models recorded or about to be |
| SchedulerRuns.ActiveMeansHolder | src/pkg/service/model_service.go:1020-1097 | when no action is under way every active model with a group is its group's holder |
| SchedulerRuns.CrossNodeRace | src/pkg/service/model_service.go:467-530 | two starts on two nodes both pass the check: both models of the group run |
| SchedulerRuns.ExclusiveIffNodeLocal | src/pkg/scheduler/scheduler.go:43-83 | every group is exclusive over all runs at every moment exactly when no group spans two nodes |
| SchedulerRuns.AllowedMeaning | src/pkg/service/model_service.go:1499-1528 | which actions exclude each other in every state the registry knows |
| SchedulerRuns.AllowedInTruth | src/pkg/service/model_service.go:1499-1528 | in a registry state that tells the truth, what is active can be stopped and unloaded and not loaded, and what is not active cannot be stopped; other backends load and start exactly when not active |
| SchedulerRuns.AllowedInDoubt | src/pkg/service/model_service.go:1499-1528 | in an unknown or failed state a model can be loaded and started, not stopped or unloaded |
| ModelActions.ModelService.TryLockNodeAction | src/pkg/service/model_service.go:638-646 | locks a node exactly when it was free |
| ModelActions.ModelService.BeginAction | src/pkg/service/model_service.go:458-530 | which action is admitted, per action, on a free node: in a truthful state by whether the model is active, and for loads and starts only if no other model holds the group; a refused one changes nothing |
| ModelActions.ModelService.CallRuntimes | src/pkg/service/model_service.go:532-590 | a container thought to run is stopped before it is unloaded, and a failed stop ends the action |
| ModelActions.ModelService.Record | src/pkg/service/model_service.go:532-590 | which successes mark a model running and which mark it stopped |
| ModelActions.ModelService.ReconcileContainerModel | src/pkg/service/model_service.go:1020-1097 | a truthful status brings the record in line |
| ModelActions.ModelService.ExecuteAction | src/pkg/service/model_service.go:458-627 | an action run alone is one begin, one call, one finish and one refresh of the interleaved model; its success leaves exactly a started model active and recorded; a truthful stop or unload of an active model is admitted and leaves it inactive |
| PrecheckVerdict.Precheck.UpdateStatus | src/cmd/agent/main.go:983-997 | one more check joins its severity to the status and the gate |
| PrecheckVerdict.Precheck.Check | src/cmd/agent/main.go:998-1007 | status, gate and lists stay what all calls so far amount to |
| PrecheckVerdict.Precheck.Because | src/cmd/agent/main.go:1008-1021 | the same for a reason |
| PrecheckVerdict.WorstIff | src/cmd/agent/main.go:983-1021 | the verdict fails exactly when some call is a blocking failed check or a blocking reason |
| PrecheckVerdict.VerdictIff | src/cmd/agent/main.go:983-1021 | failed exactly when a blocking check failed or a blocking reason was given, ok exactly when no check failed or warned and no reason was given |
| PrecheckVerdict.VerdictIgnoresOrder | src/cmd/agent/main.go:983-1021 | neither order nor repetition of calls matters |
| PrecheckTask.ExtractPrecheckFailureCodes | src/cmd/agent/main.go:1522-1538 | the loop returns the list FailureCodesIff is about |
| PrecheckTask.FailureCodesIff | src/cmd/agent/main.go:1522-1538 | the failure list holds exactly the blocking codes, each once |
| PrecheckTask.SortMountRules | src/cmd/agent/main.go:1051-1069 | nothing is collected exactly when every mount rule's host exists and its container path is allowed |
| PrecheckTask.PathAllowed | src/cmd/agent/main.go:1418-1433 | a path is allowed exactly under one of the mount points |
| PrecheckTask.UnderIff | src/cmd/agent/main.go:1418-1433 | a path is under a mount exactly if it is the mount or goes on with a slash |
| PrecheckTask.SiblingIsNotUnder | src/cmd/agent/main.go:1418-1433 | a path whose name merely begins like the mount is not under it |
| PrecheckTask.TrailingSlashIsIgnored | src/cmd/agent/main.go:1418-1433 | slashes behind a mount make no difference to what lies under it |
| PrecheckTask.RootMountTakesAll | src/cmd/agent/main.go:1418-1433 | the root mount takes exactly the absolute paths |
| PrecheckTask.RuleReads | src/cmd/agent/main.go:1400-1417 | host and container of a mount rule, with or without a mode |
| PrecheckTask.NothingWrongIff | src/cmd/agent/main.go:1023-1352 | when exactly a precheck finds nothing wrong, in terms of the facts |
| PrecheckTask.AllRaises | src/cmd/agent/main.go:1023-1352 | the reasons recorded are exactly the problems there are |
| PrecheckTask.ExecuteRuntimePrecheckTask | src/cmd/agent/main.go:943-1399 | the task fails exactly when something blocking is wrong; it then gates, and its failure list is non-empty and names exactly what is wrong |
| PrecheckTask.PrecheckReportIsGuaranteed | src/pkg/service/runtime_object_service.go:1498-1555 | the report of a precheck meets what the controller's theorems ask of reports and gates exactly on failure |
| FailedPrecheck.ProblemsPreventStarts | src/cmd/agent/main.go:1372-1398 | a problem the agent's precheck finds keeps the controller from storing any start of the model, until a later precheck finds none |
| FailedPrecheck.NoProblemsLiftTheGate | src/pkg/service/runtime_object_service.go:1490-1555 | a precheck that finds no problem lifts the gate |
| TaskContext.ProjectionIff | src/cmd/agent/main.go:391-526 | resolving, writing back in any order and resolving again gives the same context exactly when no nested value hides under a padded key of something that reads as nothing, a condition on the payload alone |
| TaskContext.ResolvingIsAProjection | src/cmd/agent/main.go:391-526 | for trimmed nested keys resolving is a projection |
| TaskContext.PaddedKeyIsRevealed | src/cmd/agent/main.go:2357-2376 | the failing family: a padded nested key is read only after the write-back |
| TaskContext.AgentSchemaIsValid | src/cmd/agent/main.go:391-470 | the agent's own keys and aliases satisfy what the theorems ask |
| TaskContext.FoundIsOverlay | src/cmd/agent/main.go:391-470 | a context is the overlay of what payload and nested copy show by themselves: payload over copy for lists, maps and texts with one name, copy over payload for flags |
| TaskContext.RefusedIffIncomplete | src/cmd/agent/main.go:471-512 | resolving is refused exactly when a context scoped to a runtime instance lacks one of four ids, and the error names those it lacks |
| TaskContext.DecodedListMeaning | src/cmd/agent/main.go:2409-2443 | a decoded list is read as its trimmed items without blanks and nils |
| TaskContext.TrimMapKeys | src/cmd/agent/main.go:2357-2366 | trims the keys of a map; of several that trim to one, one wins |
| TaskContext.ApplyResolvedContextToTask | src/cmd/agent/main.go:516-526 | writes the context into the payload and into its nested copy with trimmed keys, whatever the order of walking |
| Docker.StringSlicesEqual | src/pkg/adapter/dockerctl/adapter.go:1063-1073 | equality item by item up to white space |
| Docker.StringSlicesAsSetEqual | src/pkg/adapter/dockerctl/adapter.go:1075-1096 | comparing counts compares the multisets of trimmed items |
| Docker.SameNameDifferentOwner | src/pkg/adapter/dockerctl/adapter.go:1311-1329 | two ids with one container name never own the same container |
| DockerAdapter.Adapter.ContainerNeedsRecreate | src/pkg/adapter/dockerctl/adapter.go:625-648 | unless a call fails, a container is kept exactly if it matches the template's image, command and bind multiset |
| DockerAdapter.Adapter.ResolveContainerID | src/pkg/adapter/dockerctl/adapter.go:650-679 | whatever is found belongs to the model; unless a call fails it is the candidate the metadata names or the name lists, and nothing is found only if there is none or it is another's |
| DockerAdapter.Adapter.EnsureContainer | src/pkg/adapter/dockerctl/adapter.go:563-623 | touches only own containers and yields a new container or an own one that matches; unless a call fails matching own candidates are kept as they are, foreign ones are refused, only stale own ones go, and a model whose way is clear gets one |
| DockerAdapter.Adapter.CreateContainer | src/pkg/adapter/dockerctl/adapter.go:611-623 | adds one container with a fresh id, unless a call fails exactly if the name is free |
| DockerAdapter.Adapter.LoadModel | src/pkg/adapter/dockerctl/adapter.go:103-139 | touches only own containers and on success leaves one that does not run; unless a call fails it succeeds whenever the way is clear, and only switches off a matching one |
| DockerAdapter.Adapter.StartModel | src/pkg/adapter/dockerctl/adapter.go:165-210 | touches only own containers and on success leaves one that runs; unless a call fails it succeeds whenever the way is clear, and only switches on a matching one |
| DockerAdapter.Adapter.UnloadModel | src/pkg/adapter/dockerctl/adapter.go:141-163 | removes at most one container, which was the model's own; unless a call fails it succeeds, and removes the candidate unless there is none or it is another's |
| DockerAdapter.Adapter.StopModel | src/pkg/adapter/dockerctl/adapter.go:212-240 | stops at most one container, which was the model's own; unless a call fails it succeeds, and stops the candidate unless there is none or it is another's |
| DockerAdapter.Adapter.RunOperations | src/pkg/adapter/dockerctl/adapter.go:103-240 | over any run of the four operations for any models, on a daemon that may fail any call, a container that belongs to none of them is unchanged |
| DockerAdapter.ForeignBecause | src/pkg/adapter/dockerctl/adapter.go:681-724 | so is a container that is not managed, and one whose current label names a model that does not act, whatever its former label says |
| DockerAdapter.NewContainerIsOwned | src/pkg/adapter/dockerctl/adapter.go:852-928 | a created container belongs to its model and matches its template |
| DockerAdapter.ReusedIsLikeNew | src/pkg/adapter/dockerctl/adapter.go:625-648 | what matches is what would be made: same image, command and binds, and no other template |
| Docker.FormerLabelsCount | src/pkg/adapter/dockerctl/adapter.go:681-724 | a container with only the former labels is owned by what they say |
| Docker.FitIdIsKept | src/pkg/adapter/dockerctl/adapter.go:1309-1329 | a model id that is a fit name already is kept in the container name |
| ModelMerge.MergeOneKeeps | src/pkg/service/model_service.go:1607-1694 | stored runtime state, context lengths and times win unless blank, found descriptions, sizes and tags win unless blank, nothing known is lost |
| ModelMerge.MergeOneAssociates | src/pkg/service/model_service.go:1607-1694 | merging two stored models in one after the other merges in what they merge to |
| ModelMerge.MergedIds | src/pkg/service/model_service.go:1582-1605 | the ids of a merge are exactly the union, whether or not they repeat |
| ModelMerge.MergeOfUnique | src/pkg/service/model_service.go:1582-1605 | with distinct found ids the result is the one sorted list of the merged models, even if stored ids repeat |
| ModelMerge.MergeIsIdempotent | src/pkg/service/model_service.go:1582-1605 | merging the same stored list again changes nothing, even if that list repeats ids |
| ModelMerge.MergeInTwoSteps | src/pkg/service/model_service.go:1582-1605 | merging in two stored lists one after the other merges in what they merge to |
| ModelMerge.SortById | src/pkg/service/model_service.go:1601-1604 | sorts any list by id without losing or changing a model |
| ModelMerge.MergeModels | src/pkg/service/model_service.go:1582-1605 | for any two lists: stored models of one id are folded into the last found model of that id, earlier found ones stay, all in order |

## Left out

- Identifiers and Unicode: case folding, and ids that differ only in case or white space. The model uses canonical identifiers; text laws are about Unicode white space and ASCII letters.
- Messages, health texts, drift reasons, plan ids and plan details, metadata other than the copies of decisions.
- A manifest that cannot be resolved is `None`; other failures of reads inside a reconcile (the list of instances, the store) are not modelled. On such a failure the code skips the conflict check.
- Runtime kind from metadata when no manifest resolves: nothing writes that entry, so such an instance has the unknown kind.
- Precheck results without a summary: rows older than summaries, where reasons are rebuilt from the raw result.
- ApplyAgentTaskObservation: read, store and reconcile are one atomic step in the runs; another step between its read and its write is not modelled.
- RuntimeObjectService.Service.UpsertRuntimeInstance: in-memory map only; the database behind it is the row round trip of `InstanceRow`.
- Liveness: two instances that both want one slot can defer and release each other for ever.
- TaskStore.Store.ClaimPendingTaskForAgent: the least key, not the oldest task. Creation times are stored as text that drops trailing zeros, so text order is not always time order.
- Task details, payloads and the projection of reports onto models; enrichment of task fields.
- Actions: the agent-first path of runtime tasks, and the projection of instances onto models, which mark models running without asking the scheduler. Status is taken as truthful and read and recorded in one step, and a call that fails may stop a container but never leaves a new one running.
- Node of a model and policies: fixed during a scheduler run.
- Sync of models of the LM Studio backend, which get no instance.
- Docker: image pulls beyond one retry, ports, devices and environment of a created container, the path translation of binds for the docker host (binds are taken as already translated), and references that name a container by prefix.
- PrecheckTask: facts about files, environment, ports in use and the container are inputs; lists are taken as already normalised. The final override of the status by the gate changes nothing, as the gate already implies it.
- TaskContext: values that print in a way the code does not control are some non-empty text. The protocol error's detail is its list of missing fields.
- Kind, manifest and command settings of an instance: in the model they change with a sync; the code resolves them anew from bindings and templates whenever it looks, so an edited binding takes effect without a sync.
- ModelMerge: fields are grouped by the rule they merge by; default arguments and metadata are copied, not shared.
- SQL, JSON encoding, HTTP handlers, routing, the web page, configuration, logging, the GPU probe, ping, supervision of the fitting helper, capability tiers and the simple registries.
