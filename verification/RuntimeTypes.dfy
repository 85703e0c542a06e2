/** The records the controller keeps about runtime instances. Identifiers are canonical
    (trimmed, one spelling each); a time of 0 is Go's zero time. */
module RuntimeTypes {
  import opened Wrappers

  type InstanceId = string
  type ModelId = string
  type NodeId = string
  type Time = nat

  /** A desired or observed state; Blank is the empty text. */
  datatype Phase = Blank | UnknownPhase | Stopped | Running | Loaded | OtherPhase(text: string)

  datatype Readiness = ReadinessUnknown | Ready | NotReady

  datatype Source = NoSource | UnknownSource | FromAgent | FromController

  datatype PrecheckStatus = PrecheckUnset | PrecheckUnknown | PrecheckOk | PrecheckWarning | PrecheckFailed

  datatype ConflictStatus = ConflictUnset | ConflictUnknown | ConflictClear | ConflictWarning | ConflictBlocked

  datatype GatingStatus = GatingUnset | GatingUnknown | GatingAllowed | GatingBlocked | GatingDeferred

  datatype Action = ActionUnset | NoAction | Load | Start | LoadStart | Stop | Unload | Refresh | ReleaseSlot

  datatype PlanStatus = PlanUnset | Planned | Executing | Completed | PlanBlocked | Deferred

  datatype PlanMessage =
    | NoMessage
    | NoTransition
    | BlockedByGating
    | WaitingForRelease
    | PlannedToStart
    | PlannedToStop
    | PlannedOther
    | ReleaseFor(owner: InstanceId)

  datatype RuntimeTaskType = RuntimeStart | RuntimeStop | RuntimeRestart | RuntimeRefresh

  /** Why a reconcile runs. */
  datatype Trigger =
    | Bootstrap | Periodic | AgentTaskReport | SummaryQuery | TestRun
    | TaskStart | TaskRestart | TaskStop | TaskRefresh

  /** Reason codes: the controller's own, the two of the agent's it repeats, any other text the
      agent sends, and the empty code. */
  datatype Code =
    | NoCode
    | PortConflict | KindMutex | DuplicateModel | Drift
    | CommandOverrideForbidden | ScriptMountForbidden
    | AgentOffline | ObservationStale
    | OtherCode(text: string)

  /** A condition reason: what is wrong, whether it blocks, and the instance it is about. */
  datatype Reason = Reason(code: Code, blocking: bool, source: Source, related: InstanceId)

  datatype PrecheckSummary = PrecheckSummary(
    status: PrecheckStatus, gating: bool, reasons: seq<Reason>, generatedAt: Time, source: Source)

  datatype ConflictSummary = ConflictSummary(
    status: ConflictStatus, blocking: bool, reasons: seq<Reason>, generatedAt: Time, source: Source)

  datatype GatingSummary = GatingSummary(
    status: GatingStatus, allowed: bool, reasons: seq<Reason>, generatedAt: Time, source: Source, target: Action)

  datatype Plan = Plan(
    action: Action, status: PlanStatus, message: PlanMessage,
    reasonCodes: seq<Code>, blockedCodes: seq<Code>, releaseTargets: seq<InstanceId>,
    requested: Option<RuntimeTaskType>, generatedAt: Time)

  /** Each decision is kept twice: as flat fields and as a summary. */
  datatype PrecheckFields = PrecheckFields(
    status: PrecheckStatus, gating: bool, reasons: seq<Code>, summary: Option<PrecheckSummary>)

  datatype ConflictFields = ConflictFields(
    status: ConflictStatus, blocking: bool, reasons: seq<Code>,
    source: Source, generatedAt: Time, summary: Option<ConflictSummary>)

  datatype GatingFields = GatingFields(
    status: GatingStatus, allowed: bool, reasons: seq<Code>,
    source: Source, generatedAt: Time, summary: Option<GatingSummary>)

  datatype PlanFields = PlanFields(
    action: Action, status: PlanStatus, message: PlanMessage, generatedAt: Time, plan: Option<Plan>)

  /** What the binding and manifest of an instance resolve to. Ports are kept as the host ports
      their entries denote, read the way Ports.HostPorts reads them. */
  datatype Manifest = Manifest(
    kind: string, hostPorts: seq<string>,
    commandOverrideAllowed: bool, scriptMountAllowed: bool,
    overridesCommand: bool, usesScript: bool)

  datatype Instance = Instance(
    id: InstanceId, modelId: ModelId, nodeId: NodeId,
    manifest: Option<Manifest>,
    desired: Phase, observed: Phase, readiness: Readiness,
    hostPorts: seq<string>,
    precheckedByAgent: bool, lastPrecheckAt: Time, lastAgentTaskAt: Time, lastReconciledAt: Time,
    precheck: PrecheckFields, conflict: ConflictFields, gating: GatingFields, lastPlan: PlanFields)

  const UNKNOWN_KIND := "unknown"

  function Kind(i: Instance): string {
    if i.manifest.Some? then i.manifest.value.kind else UNKNOWN_KIND
  }

  predicate KindKnown(i: Instance) {
    Kind(i) != "" && Kind(i) != UNKNOWN_KIND
  }

  /** Two instances that compete for one slot: same node, same known runtime kind. */
  predicate SameSlot(a: Instance, b: Instance) {
    a.nodeId != "" && a.nodeId == b.nodeId && KindKnown(a) && Kind(a) == Kind(b)
  }

  predicate IsLoadLike(a: Action) {
    a.Load? || a.LoadStart? || a.Start? || a.Refresh?
  }

  /** A plan that already claims the slot for its instance. */
  predicate ClaimsSlot(p: Option<Plan>) {
    && p.Some?
    && (p.value.action.Load? || p.value.action.LoadStart? || p.value.action.Start?)
    && (p.value.status.Planned? || p.value.status.Executing? || p.value.status.Deferred?)
  }

  predicate OccupiesSlot(i: Instance) {
    || i.observed.Running?
    || (i.desired.Running? && !i.observed.Stopped?)
    || ClaimsSlot(i.lastPlan.plan)
  }

  predicate HoldsLoadGrant(i: Instance) {
    i.lastPlan.plan.Some? && i.lastPlan.plan.value.action == Load && i.lastPlan.plan.value.status == Planned
  }

  /** The codes of some reasons in order, blanks and repeats dropped. */
  function Codes(reasons: seq<Reason>): seq<Code> {
    CodesOnto([], reasons)
  }

  function CodesOnto(seen: seq<Code>, reasons: seq<Reason>): seq<Code>
    decreases reasons
  {
    if reasons == [] then seen
    else CodesOnto(AddCode(seen, reasons[0].code), reasons[1..])
  }

  function AddCode(seen: seq<Code>, code: Code): seq<Code> {
    if code == NoCode || code in seen then seen else seen + [code]
  }

  /** Appends further codes after those of the reasons, the way stale flat codes are kept. */
  function MergeCodes(seen: seq<Code>, more: seq<Code>): seq<Code>
    decreases more
  {
    if more == [] then seen else MergeCodes(AddCode(seen, more[0]), more[1..])
  }

  function NewerTime(a: Time, b: Time): Time {
    if a == 0 then b else if b == 0 then a else if a > b then a else b
  }

  lemma {:induction false} MergeCodesAbsorbs(seen: seq<Code>, more: seq<Code>)
    requires forall c | c in more :: c in seen
    ensures MergeCodes(seen, more) == seen
  {
    if more != [] {
      MergeCodesAbsorbs(seen, more[1..]);
    }
  }
}
