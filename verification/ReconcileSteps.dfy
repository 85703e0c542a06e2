/** The reconcile and the agent observation as the service performs them: one instance value
    assigned field by field, each method proved to end where the specification says. */
module ReconcileSteps {
  import opened Wrappers
  import opened RuntimeTypes
  import opened Conflict
  import opened Gating
  import opened Decisions
  import opened Reconcile
  import opened InstanceLaws

  method PrepareItem(i: Instance, env: Env) returns (item: Instance)
    ensures item == Prepared(i, env)
  {
    item := i;
    var desired := item.desired;
    if desired.Blank? || desired.UnknownPhase? {
      if item.modelId in env.modelPhase {
        desired := env.modelPhase[item.modelId];
      }
    }
    if desired.Blank? {
      desired := UnknownPhase;
    }
    item := item.(desired := desired);
    if item.observed.Blank? {
      item := item.(observed := UnknownPhase);
    }
    if item.hostPorts == [] && item.manifest.Some? {
      item := item.(hostPorts := item.manifest.value.hostPorts);
    }
  }

  method AgentSignals(item: Instance, env: Env) returns (signals: Signals)
    ensures signals == SignalsOf(item, env)
    ensures signals.known <==> AgentKnown(item, env)
    ensures signals.online ==> signals.known && item.nodeId in env.onlineNodes
    ensures signals.stale ==> signals.known && (LastHeard(item) == 0 ==> item.desired == Running)
  {
    var known, online, stale := false, false, false;
    if env.agentService && item.nodeId != "" {
      known := true;
      online := item.nodeId in env.onlineNodes;
    }
    var last := item.lastAgentTaskAt;
    if last == 0 && item.lastPrecheckAt != 0 {
      last := item.lastPrecheckAt;
    }
    if known {
      if last != 0 {
        stale := env.now - last > env.staleAfter;
      } else if item.desired.Running? {
        stale := true;
      }
    }
    signals := Signals(known, online, stale);
  }

  method SettleReadiness(item: Instance, allowed: bool, target: Action) returns (readiness: Readiness)
    ensures readiness == ReadinessAfter(item, allowed, target)
  {
    readiness := item.readiness;
    var refused := item.precheck.gating || item.precheck.status.PrecheckFailed?;
    if refused && IsLoadLike(target) {
      readiness := NotReady;
    } else if !allowed && IsLoadLike(target) {
      readiness := NotReady;
    } else if item.desired.Running? {
      if item.observed.Running? {
        if !item.readiness.Ready? {
          readiness := NotReady;
        }
      } else {
        readiness := NotReady;
      }
    } else if item.desired.Stopped? {
      if item.readiness.Ready? {
        readiness := NotReady;
      }
    }
  }

  method RefreshPrecheck(p: Instance, now: Time) returns (precheck: PrecheckSummary, item: Instance)
    ensures precheck == PrecheckSummaryOf(p, now)
    ensures item == p.(precheck := PrecheckFieldsOf(precheck, p.precheck.reasons))
  {
    precheck := PrecheckSummaryOf(p, now);
    item := p.(precheck := PrecheckFields(precheck.status, precheck.gating,
                                          MergeCodes(Codes(precheck.reasons), p.precheck.reasons), Some(precheck)));
  }

  /** The whole judgement of one instance against a listing. */
  method ReconcileItem(i: Instance, others: seq<Instance>, trigger: Trigger, env: Env) returns (item: Instance)
    requires i.id != "" && ProperListing(others)
    ensures item == Reconciled(i, others, trigger, env)
  {
    item := PrepareItem(i, env);
    var target := TargetAction(item.desired, item.observed, trigger);
    var signals := AgentSignals(item, env);
    var precheck;
    precheck, item := RefreshPrecheck(item, env.now);
    assert item == Prechecked(i, env);
    var conflict := EvaluateConflictSummary(item, others, target, signals, env.now);
    var gating := BuildRuntimeGatingSummary(precheck, conflict, target, env.now);
    var plan := PlanOf(gating, conflict, target, env.now);
    assert Verdict(precheck, conflict, gating, plan) == Judge(i, others, trigger, env);
    var readiness := SettleReadiness(item, gating.allowed, target);
    item := item.(conflict := ConflictFieldsOf(conflict), gating := GatingFieldsOf(gating),
                  lastPlan := PlanFieldsOf(plan), readiness := readiness, lastReconciledAt := env.now);
  }

  method ObservePrecheck(i: Instance, result: Option<PrecheckResult>, failures: seq<Code>,
                         success: bool, eventAt: Time, now: Time) returns (item: Instance)
    ensures var fields := PrecheckObserved(i, result, failures, success, eventAt);
            var ports := if result.Some? && result.value.hostPorts != [] then result.value.hostPorts else i.hostPorts;
            item == Guarded(fields.gating,
                            i.(precheckedByAgent := true, lastPrecheckAt := now, precheck := fields, hostPorts := ports))
  {
    item := i.(precheckedByAgent := true, lastPrecheckAt := now);
    var status, gating, codes := PrecheckOk, false, [];
    if !success {
      status, gating, codes := PrecheckFailed, true, failures;
    }
    if result.Some? {
      var r := result.value;
      var about := seq(|r.reasons|, k requires 0 <= k < |r.reasons| =>
                         Reason(r.reasons[k].code, r.reasons[k].blocking, FromAgent, i.id));
      item := item.(precheck := PrecheckFields(r.status, r.gating, Codes(about),
                                               Some(PrecheckSummary(r.status, r.gating, about, eventAt, FromAgent))));
      if r.hostPorts != [] {
        item := item.(hostPorts := r.hostPorts);
      }
    } else {
      var reasons := ConditionReasons(codes, FromAgent, i.id);
      item := item.(precheck := PrecheckFields(status, gating, codes,
                                               Some(PrecheckSummary(status, gating, reasons, eventAt, FromAgent))));
    }
    if item.precheck.gating {
      item := item.(readiness := NotReady);
    }
  }

  method ObserveFinding(i: Instance, r: Report, now: Time) returns (item: Instance)
    ensures item == FindingObserved(i, r, now)
  {
    item := i;
    match r.finding
    case RuntimePrecheck(result, failures) =>
      item := ObservePrecheck(i, result, failures, r.success, r.eventAt, now);
    case RuntimeReadiness(ready) =>
      if ready.Some? {
        if ready.value {
          item := item.(readiness := Ready);
          if item.observed.Blank? {
            item := item.(observed := Running);
          }
        } else {
          item := item.(readiness := NotReady);
        }
      } else if r.success {
        item := item.(readiness := Ready);
      } else {
        item := item.(readiness := NotReady);
      }
    case PortCheck(hostPort) =>
      if hostPort.Some? && hostPort.value !in item.hostPorts {
        item := item.(hostPorts := item.hostPorts + [hostPort.value]);
      }
      if !r.success {
        item := item.(readiness := NotReady);
      }
    case ModelPathCheck(exists_) =>
      if exists_.Some? && !exists_.value {
        item := item.(readiness := NotReady);
      }
      if !r.success {
        item := item.(readiness := NotReady);
      }
    case DockerAction(exists_, running, ready) =>
      if exists_.Some? && !exists_.value {
        item := item.(observed := Stopped, readiness := NotReady);
      } else if running.Some? && running.value {
        item := item.(observed := Running);
        item := item.(readiness := if ready.Some? && !ready.value then NotReady else Ready);
      } else if exists_.Some? && exists_.value {
        item := item.(observed := Loaded, readiness := NotReady);
      }
    case ResourceSnapshot =>
  }

  method ObserveReport(i: Instance, r: Report, now: Time) returns (item: Instance)
    ensures item == Observed(i, r, now)
  {
    item := i.(lastAgentTaskAt := r.eventAt);
    if item.nodeId == "" {
      item := item.(nodeId := r.nodeId);
    }
    if r.hostPorts != [] {
      item := item.(hostPorts := r.hostPorts);
    }
    item := ObserveFinding(item, r, now);
    if !r.observedState.Blank? {
      item := item.(observed := r.observedState);
    }
    if item.precheck.gating && item.readiness.Ready? {
      item := item.(readiness := NotReady);
    }
    item := item.(lastReconciledAt := now);
  }

  /** A freshly built instance takes over what is known about its predecessor, field by field. */
  method MergeExisting(e: Instance, m: ModelView) returns (item: Instance)
    requires m.id == e.modelId && !e.precheck.status.PrecheckUnset?
    ensures item == SyncedInstance(e, m)
  {
    item := NewInstance(e.id, m).(nodeId := m.nodeId, lastReconciledAt := m.lastReconciledAt);
    if item.nodeId == "" {
      item := item.(nodeId := e.nodeId);
    }
    if !e.observed.Blank? {
      item := item.(observed := e.observed);
    }
    if !e.readiness.ReadinessUnknown? {
      item := item.(readiness := e.readiness);
    }
    item := item.(lastReconciledAt := NewerTime(e.lastReconciledAt, item.lastReconciledAt),
                  precheckedByAgent := e.precheckedByAgent, lastPrecheckAt := e.lastPrecheckAt,
                  lastAgentTaskAt := e.lastAgentTaskAt, precheck := e.precheck,
                  conflict := e.conflict.(reasons := MergeCodes([], e.conflict.reasons)),
                  gating := e.gating.(reasons := MergeCodes([], e.gating.reasons)),
                  lastPlan := e.lastPlan);
    if e.hostPorts != [] {
      item := item.(hostPorts := e.hostPorts);
    }
    if item.nodeId == "" {
      item := item.(nodeId := m.fallbackNode);
    }
  }
}
