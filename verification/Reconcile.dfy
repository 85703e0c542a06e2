/** What one reconcile, one agent report or one model sync makes of a single instance. */
module Reconcile {
  import opened Wrappers
  import opened RuntimeTypes
  import opened Conflict
  import opened Gating
  import opened Decisions

  /** What a step reads besides the instances: the clock, the agents that are online, the
      registered models' desired (or else current) state. */
  datatype Env = Env(
    now: Time, agentService: bool, onlineNodes: set<NodeId>, staleAfter: nat, modelPhase: map<ModelId, Phase>)

  // ---- Reconcile ----

  function DesiredPhase(i: Instance, env: Env): Phase {
    var d := if (i.desired.Blank? || i.desired.UnknownPhase?) && i.modelId in env.modelPhase
             then env.modelPhase[i.modelId] else i.desired;
    if d.Blank? then UnknownPhase else d
  }

  function Prepared(i: Instance, env: Env): Instance {
    i.(desired := DesiredPhase(i, env),
       observed := if i.observed.Blank? then UnknownPhase else i.observed,
       hostPorts := if i.hostPorts == [] && i.manifest.Some? then i.manifest.value.hostPorts else i.hostPorts)
  }

  function TargetAction(desired: Phase, observed: Phase, trigger: Trigger): Action {
    if trigger.TaskStart? || trigger.TaskRestart? then LoadStart
    else if trigger.TaskStop? then Unload
    else if desired.Running? && !observed.Running? then Load
    else if desired.Stopped? && observed.Running? then Unload
    else NoAction
  }

  function SignalsOf(i: Instance, env: Env): Signals {
    var known := env.agentService && i.nodeId != "";
    var last := if i.lastAgentTaskAt != 0 then i.lastAgentTaskAt else i.lastPrecheckAt;
    var stale := known && if last != 0 then env.now - last > env.staleAfter else i.desired.Running?;
    Signals(known, known && i.nodeId in env.onlineNodes, stale)
  }

  function PrecheckSummaryOf(i: Instance, now: Time): PrecheckSummary {
    var p := i.precheck;
    var reporter := if i.precheckedByAgent then FromAgent else FromController;
    match p.summary
    case Some(s) =>
      var status := if !s.status.PrecheckUnset? then s.status
                    else if !p.status.PrecheckUnset? then p.status else PrecheckUnknown;
      var source := if s.source.NoSource? then reporter else s.source;
      PrecheckSummary(status, s.gating || p.gating,
                      if s.reasons == [] then ConditionReasons(p.reasons, source, i.id) else s.reasons,
                      if s.generatedAt == 0 then NewerTime(i.lastPrecheckAt, now) else s.generatedAt, source)
    case None =>
      var reasons := ConditionReasons(p.reasons, reporter, i.id);
      var status := if p.status.PrecheckUnset? then PrecheckUnknown else p.status;
      PrecheckSummary(if status.PrecheckUnknown? && reasons != [] then PrecheckWarning else status,
                      p.gating || status.PrecheckFailed?, reasons, NewerTime(i.lastPrecheckAt, now), reporter)
  }

  function PrecheckFieldsOf(s: PrecheckSummary, stale: seq<Code>): PrecheckFields {
    PrecheckFields(s.status, s.gating, MergeCodes(Codes(s.reasons), stale), Some(s))
  }

  function ConflictFieldsOf(s: ConflictSummary): ConflictFields {
    ConflictFields(s.status, s.blocking, Codes(s.reasons), s.source, s.generatedAt, Some(s))
  }

  function GatingFieldsOf(s: GatingSummary): GatingFields {
    GatingFields(s.status, s.allowed, Codes(s.reasons), s.source, s.generatedAt, Some(s))
  }

  function PlanFieldsOf(p: Plan): PlanFields {
    PlanFields(p.action, p.status, p.message, p.generatedAt, Some(p))
  }

  predicate PrecheckRefuses(p: PrecheckFields) {
    p.gating || p.status.PrecheckFailed?
  }

  function ReadinessAfter(i: Instance, allowed: bool, target: Action): Readiness {
    if IsLoadLike(target) && (PrecheckRefuses(i.precheck) || !allowed) then NotReady
    else if i.desired.Running? then
      if i.observed.Running? && i.readiness.Ready? then Ready else NotReady
    else if i.desired.Stopped? && i.readiness.Ready? then NotReady
    else i.readiness
  }

  /** The four decisions of a reconcile, for the instance as prepared. */
  datatype Verdict = Verdict(precheck: PrecheckSummary, conflict: ConflictSummary, gating: GatingSummary, plan: Plan)

  /** The prepared instance with its precheck fields brought up to date: what the conflict
      evaluation looks at. */
  function Prechecked(i: Instance, env: Env): Instance {
    var p := Prepared(i, env);
    p.(precheck := PrecheckFieldsOf(PrecheckSummaryOf(p, env.now), p.precheck.reasons))
  }

  function Judge(i: Instance, others: seq<Instance>, trigger: Trigger, env: Env): Verdict {
    var p := Prepared(i, env);
    var target := TargetAction(p.desired, p.observed, trigger);
    var precheck := PrecheckSummaryOf(p, env.now);
    var conflict := ConflictSummaryOf(Prechecked(i, env), others, target, SignalsOf(p, env), env.now);
    var gating := GatingSummaryOf(precheck, conflict, target, env.now);
    Verdict(precheck, conflict, gating, PlanOf(gating, conflict, target, env.now))
  }

  function Decide(i: Instance, v: Verdict, trigger: Trigger, env: Env): Instance {
    var p := Prechecked(i, env);
    var target := TargetAction(p.desired, p.observed, trigger);
    p.(conflict := ConflictFieldsOf(v.conflict),
       gating := GatingFieldsOf(v.gating),
       lastPlan := PlanFieldsOf(v.plan),
       readiness := ReadinessAfter(p, v.gating.allowed, target),
       lastReconciledAt := env.now)
  }

  function Reconciled(i: Instance, others: seq<Instance>, trigger: Trigger, env: Env): Instance {
    Decide(i, Judge(i, others, trigger, env), trigger, env)
  }

  // ---- Release plans ----

  function ReleasePlan(owner: InstanceId, now: Time): Plan {
    Plan(Unload, Planned, ReleaseFor(owner), [OtherCode("runtime_kind_mutex_release")], [], [], Some(RuntimeStop), now)
  }

  function Released(i: Instance, owner: InstanceId, now: Time): Instance {
    i.(lastPlan := PlanFieldsOf(ReleasePlan(owner, now)))
  }

  // ---- Agent reports ----

  datatype PrecheckResult = PrecheckResult(
    status: PrecheckStatus, gating: bool, reasons: seq<Reason>, hostPorts: seq<string>)

  datatype Finding =
    | RuntimePrecheck(result: Option<PrecheckResult>, failures: seq<Code>)
    | RuntimeReadiness(ready: Option<bool>)
    | PortCheck(hostPort: Option<string>)
    | ModelPathCheck(exists_: Option<bool>)
    | DockerAction(exists_: Option<bool>, running: Option<bool>, ready: Option<bool>)
    | ResourceSnapshot

  /** An agent task as reported, for one instance. A "running" report counts as not successful. */
  datatype Report = Report(
    finding: Finding, success: bool, eventAt: Time,
    nodeId: NodeId, hostPorts: seq<string>, observedState: Phase)

  function PrecheckObserved(i: Instance, result: Option<PrecheckResult>, failures: seq<Code>,
                            success: bool, eventAt: Time): PrecheckFields
  {
    match result
    case Some(r) =>
      var about := seq(|r.reasons|, k requires 0 <= k < |r.reasons| =>
                         Reason(r.reasons[k].code, r.reasons[k].blocking, FromAgent, i.id));
      PrecheckFields(r.status, r.gating, Codes(about),
                     Some(PrecheckSummary(r.status, r.gating, about, eventAt, FromAgent)))
    case None =>
      var status := if success then PrecheckOk else PrecheckFailed;
      var codes := if success then [] else failures;
      PrecheckFields(status, !success, codes,
                     Some(PrecheckSummary(status, !success, ConditionReasons(codes, FromAgent, i.id), eventAt, FromAgent)))
  }

  function Guarded(condition: bool, i: Instance): Instance {
    if condition then i.(readiness := NotReady) else i
  }

  function DockerObserved(i: Instance, exists_: Option<bool>, running: Option<bool>, ready: Option<bool>): Instance {
    if exists_ == Some(false) then i.(observed := Stopped, readiness := NotReady)
    else if running == Some(true) then
      i.(observed := Running, readiness := if ready == Some(false) then NotReady else Ready)
    else if exists_ == Some(true) then i.(observed := Loaded, readiness := NotReady)
    else i
  }

  function FindingObserved(i: Instance, r: Report, now: Time): Instance {
    match r.finding
    case RuntimePrecheck(result, failures) =>
      var fields := PrecheckObserved(i, result, failures, r.success, r.eventAt);
      var ports := if result.Some? && result.value.hostPorts != [] then result.value.hostPorts else i.hostPorts;
      Guarded(fields.gating,
              i.(precheckedByAgent := true, lastPrecheckAt := now, precheck := fields, hostPorts := ports))
    case RuntimeReadiness(ready) =>
      if ready == Some(true) then
        i.(readiness := Ready, observed := if i.observed.Blank? then Running else i.observed)
      else if ready.None? && r.success then i.(readiness := Ready)
      else i.(readiness := NotReady)
    case PortCheck(hostPort) =>
      var ports := if hostPort.Some? && hostPort.value !in i.hostPorts then i.hostPorts + [hostPort.value] else i.hostPorts;
      Guarded(!r.success, i.(hostPorts := ports))
    case ModelPathCheck(exists_) => Guarded(exists_ == Some(false) || !r.success, i)
    case DockerAction(exists_, running, ready) => DockerObserved(i, exists_, running, ready)
    case ResourceSnapshot => i
  }

  /** The instance as the report leaves it, before it is stored and reconciled. */
  function Observed(i: Instance, r: Report, now: Time): Instance {
    var located := i.(lastAgentTaskAt := r.eventAt,
                      nodeId := if i.nodeId == "" then r.nodeId else i.nodeId,
                      hostPorts := if r.hostPorts != [] then r.hostPorts else i.hostPorts);
    var found := FindingObserved(located, r, now);
    var seen := found.(observed := if r.observedState.Blank? then found.observed else r.observedState);
    Guarded(seen.precheck.gating && seen.readiness.Ready?, seen).(lastReconciledAt := now)
  }

  predicate GatingPrecheck(r: Report) {
    r.finding.RuntimePrecheck?
    && if r.finding.result.Some? then r.finding.result.value.gating else !r.success
  }

  predicate ClearingPrecheck(r: Report) {
    r.finding.RuntimePrecheck? && !GatingPrecheck(r)
  }

  /** A decoded result always carries a status, and failure lists carry no blank codes. */
  predicate ProperReport(r: Report) {
    && r.eventAt != 0
    && (r.finding.RuntimePrecheck? ==>
          && NoCode !in r.finding.failures
          && (r.finding.result.Some? ==> !r.finding.result.value.status.PrecheckUnset?))
  }

  // ---- Model sync ----

  /** A registered model with what its binding and template say about where it runs. */
  datatype ModelView = ModelView(
    id: ModelId, desired: Phase, observed: Phase, readiness: Readiness,
    nodeId: NodeId, fallbackNode: NodeId, manifest: Option<Manifest>, hostPorts: seq<string>,
    lastReconciledAt: Time, syncedAt: Time)

  function SyncedNode(m: ModelView, known: NodeId): NodeId {
    if m.nodeId != "" then m.nodeId else if known != "" then known else m.fallbackNode
  }

  function NewInstance(id: InstanceId, m: ModelView): Instance {
    Instance(id, m.id, SyncedNode(m, ""), m.manifest, m.desired, m.observed, m.readiness, m.hostPorts,
             false, 0, 0, if m.lastReconciledAt == 0 then m.syncedAt else m.lastReconciledAt,
             PrecheckFields(PrecheckUnknown, false, [], None),
             ConflictFields(ConflictUnset, false, [], NoSource, 0, None),
             GatingFields(GatingUnset, false, [], NoSource, 0, None),
             PlanFields(ActionUnset, PlanUnset, NoMessage, 0, None))
  }

  /** A sync takes the desired state, the place and the manifest from the model and keeps what
      was observed and decided about the instance. */
  function SyncedInstance(e: Instance, m: ModelView): Instance {
    e.(desired := m.desired, manifest := m.manifest, nodeId := SyncedNode(m, e.nodeId),
       observed := if e.observed.Blank? then m.observed else e.observed,
       readiness := if e.readiness.ReadinessUnknown? then m.readiness else e.readiness,
       hostPorts := if e.hostPorts == [] then m.hostPorts else e.hostPorts,
       lastReconciledAt := NewerTime(e.lastReconciledAt, m.lastReconciledAt),
       conflict := e.conflict.(reasons := MergeCodes([], e.conflict.reasons)),
       gating := e.gating.(reasons := MergeCodes([], e.gating.reasons)))
  }
}
