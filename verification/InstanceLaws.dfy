/** What every step keeps of one instance, and what a reconcile decides. */
module InstanceLaws {
  import opened Wrappers
  import opened RuntimeTypes
  import opened Conflict
  import opened Gating
  import opened Decisions
  import opened Reconcile

  /** The per-instance invariant: decisions agree with their summaries, and a gated instance
      is not ready. */
  predicate Sound(i: Instance) {
    Settled(i) && (i.precheck.gating ==> i.readiness == NotReady)
  }

  predicate SamePlace(a: Instance, b: Instance) {
    a.id == b.id && a.modelId == b.modelId && a.nodeId == b.nodeId && a.manifest == b.manifest
  }

  // ---- Reconcile ----

  /** What the agent promises of a precheck: a blocking reason comes with the gate closed. */
  predicate Guaranteed(i: Instance) {
    i.precheck.summary.Some? ==> BlockingReasonsGate(i.precheck.summary.value)
  }

  lemma PrecheckCarriesOver(i: Instance, env: Env)
    requires Settled(i)
    ensures var p := Prechecked(i, env).precheck;
            && SettledPrecheck(p) && p.status == i.precheck.status && p.gating == i.precheck.gating
            && p.reasons == i.precheck.reasons
            && p.summary.value.reasons == i.precheck.summary.value.reasons
            && p.summary.value.gating == i.precheck.gating
  {
    MergeCodesAbsorbs(i.precheck.reasons, i.precheck.reasons);
  }

  /** A reconcile keeps an instance sound, where it is, and as gated as it was. */
  lemma ReconcileKeepsSound(i: Instance, others: seq<Instance>, trigger: Trigger, env: Env)
    requires Sound(i)
    ensures var r := Reconciled(i, others, trigger, env);
            && Sound(r) && SamePlace(r, i) && r.precheck.gating == i.precheck.gating
            && (Guaranteed(i) <==> Guaranteed(r))
  {
    PrecheckCarriesOver(i, env);
  }

  /** Right after a reconcile, an instance wanted running or stopped is ready only if it is both
      wanted running and observed running. */
  lemma ReadyMeansRunning(i: Instance, others: seq<Instance>, trigger: Trigger, env: Env)
    ensures var r := Reconciled(i, others, trigger, env);
            r.readiness == Ready && (r.desired == Running || r.desired == Stopped)
            ==> r.desired == Running && r.observed == Running
  {
  }

  /** Codes kept without their reasons count as blocking, so an instance saved before reasons were
      kept is refused too. */
  lemma FlatCodesBlock(i: Instance, now: Time, code: Code)
    requires i.precheck.summary.None? || i.precheck.summary.value.reasons == []
    requires code in i.precheck.reasons && code != NoCode
    ensures var s := PrecheckSummaryOf(i, now);
            && AnyBlocking(s.reasons)
            && (i.precheck.summary.None? && (i.precheck.status.PrecheckUnset? || i.precheck.status.PrecheckUnknown?)
                ==> s.status == PrecheckWarning)
            && (i.precheck.summary.None? && i.precheck.status.PrecheckFailed? ==> s.gating)
  {
    var s := PrecheckSummaryOf(i, now);
    var reporter := if i.precheckedByAgent then FromAgent else FromController;
    var source := if i.precheck.summary.None? || i.precheck.summary.value.source.NoSource? then reporter
                  else i.precheck.summary.value.source;
    ConditionReasonsHold(i.precheck.reasons, source, i.id);
    assert Reason(code, true, source, i.id) in s.reasons;
  }

  /** What a reconcile aims at: a start request always at loading, a stop request always at
      unloading, anything else only at what is desired and not observed. */
  lemma TargetMeaning(desired: Phase, observed: Phase, trigger: Trigger)
    ensures var target := TargetAction(desired, observed, trigger);
            var starts, stops := trigger == TaskStart || trigger == TaskRestart, trigger == TaskStop;
            && (IsLoadLike(target) <==> starts || (!stops && desired == Running && observed != Running))
            && (target == Unload <==> stops || (!starts && desired == Stopped && observed == Running))
            && (!IsLoadLike(target) && target != Unload ==> target == NoAction)
  {
  }

  /** Whoever is asked to start, and whoever wants to run and does not, even while it is asked to
      stop. */
  predicate AsksToLoad(i: Instance, trigger: Trigger) {
    trigger == TaskStart || trigger == TaskRestart || (i.desired == Running && i.observed != Running)
  }

  lemma LoaderMeaning(i: Instance, trigger: Trigger)
    ensures WantsLoad(i, TargetAction(i.desired, i.observed, trigger)) <==> AsksToLoad(i, trigger)
  {
  }

  /** When anything was last heard from an instance's agent about it; 0 for never. */
  function LastHeard(i: Instance): Time {
    if i.lastAgentTaskAt != 0 then i.lastAgentTaskAt else i.lastPrecheckAt
  }

  predicate AgentKnown(i: Instance, env: Env) {
    env.agentService && i.nodeId != ""
  }

  /** What a reconcile reports about the agent of an instance's node: it is offline, or nothing was
      heard for too long, or never although the instance should run. Only a load is in conflict
      with that, and only where there is an agent to hear from. */
  lemma AgentConflictsExact(i: Instance, others: seq<Instance>, trigger: Trigger, env: Env)
    ensures var p := Prepared(i, env);
            var reasons := Judge(i, others, trigger, env).conflict.reasons;
            && ((exists r :: r in reasons && r.code == AgentOffline)
                <==> AsksToLoad(p, trigger) && AgentKnown(i, env) && i.nodeId !in env.onlineNodes)
            && ((exists r :: r in reasons && r.code == ObservationStale)
                <==> AsksToLoad(p, trigger) && AgentKnown(i, env)
                     && if LastHeard(i) == 0 then p.desired == Running else LastHeard(i) + env.staleAfter < env.now)
  {
    var p := Prepared(i, env);
    var item := Prechecked(i, env);
    var target := TargetAction(p.desired, p.observed, trigger);
    var signals := SignalsOf(p, env);
    LoaderMeaning(p, trigger);
    var offline, stale := About(AgentOffline, true, i.id), About(ObservationStale, true, i.id);
    AgentConflictIff(item, others, target, signals, offline);
    AgentConflictIff(item, others, target, signals, stale);
    forall r | AboutAgent(r) && r in ConflictReasons(item, others, target, signals)
      ensures r == if r.code == AgentOffline then offline else stale
    {
      AgentConflictIff(item, others, target, signals, r);
    }
  }

  /** When a reconcile refuses a load. The agent's guarantee makes the precheck's part of it
      exactly its gating flag. */
  lemma RefusedIff(i: Instance, others: seq<Instance>, trigger: Trigger, env: Env)
    requires BlockingReasonsGate(Judge(i, others, trigger, env).precheck)
    ensures var v := Judge(i, others, trigger, env);
            var p := Prepared(i, env);
            var target := TargetAction(p.desired, p.observed, trigger);
            v.gating.allowed <==> !(IsLoadLike(target) && (v.precheck.gating || AnyBlocking(v.conflict.reasons)))
  {
    var v := Judge(i, others, trigger, env);
    var p := Prepared(i, env);
    GatingMeaning(v.precheck, v.conflict, TargetAction(p.desired, p.observed, trigger), env.now);
  }

  /** A gated instance is refused every load, whatever the agent's reasons look like. */
  lemma GatedIsRefused(i: Instance, others: seq<Instance>, trigger: Trigger, env: Env)
    requires i.precheck.gating
    requires trigger == TaskStart || trigger == TaskRestart
    ensures !Reconciled(i, others, trigger, env).gating.allowed
  {
  }

  /** A load that was granted was allowed. */
  lemma GrantIsAllowed(i: Instance, others: seq<Instance>, trigger: Trigger, env: Env)
    requires HoldsLoadGrant(Reconciled(i, others, trigger, env))
    ensures var p := Prepared(i, env);
            IsLoadLike(TargetAction(p.desired, p.observed, trigger)) && Judge(i, others, trigger, env).gating.allowed
  {
    var v := Judge(i, others, trigger, env);
    var p := Prepared(i, env);
    PlanClassification(v.precheck, v.conflict, TargetAction(p.desired, p.observed, trigger), env.now);
  }

  /** An idle load is never allowed past a rival. */
  lemma RivalRefuses(i: Instance, others: seq<Instance>, trigger: Trigger, env: Env, o: Instance)
    requires !i.observed.Running? && o in others && Rival(i, o)
    requires var p := Prepared(i, env); IsLoadLike(TargetAction(p.desired, p.observed, trigger))
    ensures !Judge(i, others, trigger, env).gating.allowed
  {
    var p := Prepared(i, env);
    var item := Prechecked(i, env);
    var target := TargetAction(p.desired, p.observed, trigger);
    PreparedRival(i, env, o);
    ConflictMutexIff(item, others, target, SignalsOf(p, env), o.id);
    var reasons := ConflictReasons(item, others, target, SignalsOf(p, env));
    var r :| r in reasons && r.code == KindMutex && r.related == o.id;
    MutexReasonsBlock(item, others, target, SignalsOf(p, env), r);
    assert Judge(i, others, trigger, env).conflict.blocking;
  }

  lemma PreparedRival(i: Instance, env: Env, o: Instance)
    ensures Rival(Prechecked(i, env), o) <==> Rival(i, o)
  {
  }

  /** A load is planned for an instance that is not running only when its slot has no rival. */
  lemma IdleGrantMeansFreeSlot(i: Instance, others: seq<Instance>, trigger: Trigger, env: Env, o: Instance)
    requires HoldsLoadGrant(Reconciled(i, others, trigger, env)) && !i.observed.Running?
    requires o in others && o.id != i.id && SameSlot(i, o)
    ensures !OccupiesSlot(o) && !o.observed.Running? && !HoldsLoadGrant(o)
    ensures o.desired.Running? ==> o.observed.Stopped?
  {
    GrantIsAllowed(i, others, trigger, env);
    if OccupiesSlot(o) {
      RivalRefuses(i, others, trigger, env, o);
    }
  }

  lemma MutexReasonsBlock(i: Instance, others: seq<Instance>, target: Action, signals: Signals, r: Reason)
    requires r in ConflictReasons(i, others, target, signals) && r.code == KindMutex
    ensures r.blocking
  {
    PeerMutexBlocks(i, others, WantsLoad(i, target));
    PolicyNeverMutex(i, i.precheck.reasons, r.related);
  }

  lemma {:induction false} PeerMutexBlocks(i: Instance, others: seq<Instance>, wantsLoad: bool)
    ensures forall r | r in AllPeerReasons(i, others, wantsLoad) && r.code == KindMutex :: r.blocking
  {
    if others != [] {
      PeerMutexBlocks(i, others[..|others| - 1], wantsLoad);
    }
  }

  lemma JudgedMutexIff(i: Instance, others: seq<Instance>, trigger: Trigger, env: Env, id: InstanceId)
    ensures var p := Prepared(i, env);
            MentionsMutex(Judge(i, others, trigger, env).conflict.reasons, id)
            <==> AsksToLoad(p, trigger) && !p.observed.Running? && exists o :: o in others && o.id == id && Rival(i, o)
  {
    var p := Prechecked(i, env);
    LoaderMeaning(Prepared(i, env), trigger);
    ConflictMutexIff(p, others, TargetAction(p.desired, p.observed, trigger), SignalsOf(Prepared(i, env), env), id);
    forall o ensures Rival(p, o) <==> Rival(i, o) {
      PreparedRival(i, env, o);
    }
  }

  /** Release targets are exactly the rivals of an instance that is refused a load while it is
      not running; in every other case there are none. */
  lemma ReleaseTargetsExact(i: Instance, others: seq<Instance>, trigger: Trigger, env: Env, id: InstanceId)
    requires ProperListing(others)
    ensures var r := Reconciled(i, others, trigger, env);
            var p := Prepared(i, env);
            id in r.lastPlan.plan.value.releaseTargets
            <==> (IsLoadLike(TargetAction(p.desired, p.observed, trigger)) && !r.gating.allowed
                  && !p.observed.Running? && exists o :: o in others && o.id == id && Rival(i, o))
  {
    var v := Judge(i, others, trigger, env);
    var p := Prepared(i, env);
    PlanReleasesIff(v.precheck, v.conflict, TargetAction(p.desired, p.observed, trigger), env.now, id);
    JudgedMutexIff(i, others, trigger, env, id);
    assert forall o | o in others :: o.id != "";
  }

  predicate Rivalled(i: Instance, others: seq<Instance>) {
    exists o :: o in others && Rival(i, o)
  }

  lemma SomeoneToReleaseIff(i: Instance, others: seq<Instance>, trigger: Trigger, env: Env)
    requires ProperListing(others)
    ensures var p := Prepared(i, env);
            (exists id :: id != "" && MentionsMutex(Judge(i, others, trigger, env).conflict.reasons, id))
            <==> AsksToLoad(p, trigger) && !p.observed.Running? && Rivalled(i, others)
  {
    var reasons := Judge(i, others, trigger, env).conflict.reasons;
    if id :| id != "" && MentionsMutex(reasons, id) {
      JudgedMutexIff(i, others, trigger, env, id);
    }
    if o :| o in others && Rival(i, o) {
      JudgedMutexIff(i, others, trigger, env, o.id);
    }
  }

  /** Deferred means refused with a rival to release; blocked means refused with nobody. */
  lemma DeferredIffRival(i: Instance, others: seq<Instance>, trigger: Trigger, env: Env)
    requires ProperListing(others)
    ensures var r := Reconciled(i, others, trigger, env);
            var p := Prepared(i, env);
            var target := TargetAction(p.desired, p.observed, trigger);
            var refused := IsLoadLike(target) && !r.gating.allowed;
            var rivalled := !p.observed.Running? && Rivalled(i, others);
            && (r.lastPlan.status == Completed <==> target == NoAction)
            && (r.lastPlan.status == Planned <==> target != NoAction && !refused)
            && (r.lastPlan.status == Deferred <==> refused && rivalled)
            && (r.lastPlan.status == PlanBlocked <==> refused && !rivalled)
  {
    var v := Judge(i, others, trigger, env);
    var p := Prepared(i, env);
    var target := TargetAction(p.desired, p.observed, trigger);
    PlanClassification(v.precheck, v.conflict, target, env.now);
    SomeoneToReleaseIff(i, others, trigger, env);
  }

  /** What the plan of a reconcile is about: a load for whatever would load, an unload on request or
      for what runs and should not, and else nothing; an unload is always planned. It asks for the
      task that goes with it once it is planned. */
  lemma PlanFollowsTarget(i: Instance, others: seq<Instance>, trigger: Trigger, env: Env)
    ensures var r := Reconciled(i, others, trigger, env);
            var plan := r.lastPlan;
            var starts, stops := trigger == TaskStart || trigger == TaskRestart, trigger == TaskStop;
            var loads := starts || (!stops && r.desired == Running && r.observed != Running);
            var unloads := stops || (!starts && r.desired == Stopped && r.observed == Running);
            && plan.plan.Some? && plan.plan.value.action == plan.action && plan.plan.value.status == plan.status
            && (plan.action == Load <==> loads) && (plan.action == Unload <==> unloads)
            && (!loads && !unloads ==> plan.action == NoAction)
            && (plan.status == Completed <==> plan.action == NoAction)
            && (plan.status == Planned <==> unloads || (loads && r.gating.allowed))
            && (unloads ==> r.gating.allowed)
            && plan.plan.value.requested
               == (if plan.status != Planned then None else if loads then Some(RuntimeStart) else Some(RuntimeStop))
  {
    var p := Prepared(i, env);
    var v := Judge(i, others, trigger, env);
    TargetMeaning(p.desired, p.observed, trigger);
    PlanClassification(v.precheck, v.conflict, TargetAction(p.desired, p.observed, trigger), env.now);
  }

  /** A release target gets a planned unload and keeps everything else. */
  lemma ReleaseKeepsSound(i: Instance, owner: InstanceId, now: Time)
    requires Sound(i)
    ensures var r := Released(i, owner, now);
            && Sound(r) && !HoldsLoadGrant(r)
            && r.lastPlan.action == Unload && r.lastPlan.status == Planned && i == r.(lastPlan := i.lastPlan)
            && r.lastPlan.plan.value.requested == Some(RuntimeStop) && r.lastPlan.plan.value.releaseTargets == []
  {
  }

  // ---- Reports ----

  /** What a finding never touches, and what it makes of the precheck and the readiness. */
  predicate FindingFrame(i: Instance, r: Report, o: Instance) {
    && o.conflict == i.conflict && o.gating == i.gating && o.lastPlan == i.lastPlan
    && o.id == i.id && o.modelId == i.modelId && o.manifest == i.manifest
    && o.precheck == (if r.finding.RuntimePrecheck?
                      then PrecheckObserved(i, r.finding.result, r.finding.failures, r.success, r.eventAt)
                      else i.precheck)
    && (r.finding.RuntimePrecheck? && o.precheck.gating ==> o.readiness.NotReady?)
  }

  lemma FindingObservedFrame(i: Instance, r: Report, now: Time)
    ensures FindingFrame(i, r, FindingObserved(i, r, now)) && FindingObserved(i, r, now).nodeId == i.nodeId
    ensures i.readiness.NotReady? ==> !FindingObserved(i, r, now).readiness.ReadinessUnknown?
  {
    match r.finding
    case RuntimePrecheck(_, _) =>
    case DockerAction(_, _, _) =>
    case _ =>
  }

  lemma ReportFrame(i: Instance, r: Report, now: Time)
    ensures var o := Observed(i, r, now);
            && FindingFrame(i, r, o)
            && o.nodeId == (if i.nodeId == "" then r.nodeId else i.nodeId)
            && (o.precheck.gating && i.readiness.NotReady? ==> o.readiness.NotReady?)
  {
    var located := i.(lastAgentTaskAt := r.eventAt,
                      nodeId := if i.nodeId == "" then r.nodeId else i.nodeId,
                      hostPorts := if r.hostPorts != [] then r.hostPorts else i.hostPorts);
    FindingObservedFrame(located, r, now);
  }

  /** A report as the agent makes them: blocking reasons come with the gate closed. */
  predicate GuaranteedReport(r: Report) {
    r.finding.RuntimePrecheck? && r.finding.result.Some? ==>
      (AnyBlocking(r.finding.result.value.reasons) ==> r.finding.result.value.gating)
  }

  lemma PrecheckObservedIsGuaranteed(i: Instance, r: Report)
    requires GuaranteedReport(r) && r.finding.RuntimePrecheck?
    ensures BlockingReasonsGate(
              PrecheckObserved(i, r.finding.result, r.finding.failures, r.success, r.eventAt).summary.value)
  {
    var p := PrecheckObserved(i, r.finding.result, r.finding.failures, r.success, r.eventAt);
    if r.finding.result.Some? && AnyBlocking(p.summary.value.reasons) {
      var x :| x in p.summary.value.reasons && x.blocking;
      var k: nat :| k < |p.summary.value.reasons| && p.summary.value.reasons[k] == x;
      assert r.finding.result.value.reasons[k].blocking;
    }
  }

  lemma PrecheckObservedSettles(i: Instance, result: Option<PrecheckResult>, failures: seq<Code>, success: bool, at: Time)
    requires NoCode !in failures && (result.Some? ==> !result.value.status.PrecheckUnset?)
    ensures var p := PrecheckObserved(i, result, failures, success, at);
            && p.summary.Some? && SettledPrecheck(HydratePrecheck(p))
            && HydratePrecheck(p).gating == p.gating
            && p.gating == (if result.Some? then result.value.gating else !success)
  {
    var p := PrecheckObserved(i, result, failures, success, at);
    if result.None? {
      MergeConditionCodes(p.reasons, FromAgent, i.id);
    } else {
      MergeCodesAbsorbs(p.reasons, p.reasons);
    }
  }

  /** Storing settles an instance whose precheck has a summary and whose other decisions are settled. */
  lemma StoringSettles(i: Instance)
    requires i.precheck.summary.Some? && SettledPrecheck(HydratePrecheck(i.precheck))
    requires SettledConflict(i.conflict) && SettledGating(i.gating) && SettledPlan(i.lastPlan)
    ensures Stored(i) == i.(precheck := HydratePrecheck(i.precheck)) && Settled(Stored(i))
  {
    MergeCodesAbsorbs(i.conflict.reasons, i.conflict.reasons);
    MergeCodesAbsorbs(i.gating.reasons, i.gating.reasons);
  }

  /** A stored report leaves a sound instance. Only a precheck moves the gate: a gating one sets
      it, a clearing one lifts it. */
  lemma ReportKeepsSound(i: Instance, r: Report, now: Time)
    requires Sound(i) && ProperReport(r)
    ensures var s := Stored(Observed(i, r, now));
            && Sound(s)
            && s.precheck.gating == (if r.finding.RuntimePrecheck? then GatingPrecheck(r) else i.precheck.gating)
            && s.lastPlan == i.lastPlan && s.id == i.id && s.modelId == i.modelId && s.manifest == i.manifest
            && s.nodeId == (if i.nodeId == "" then r.nodeId else i.nodeId)
            && (Guaranteed(i) && GuaranteedReport(r) ==> Guaranteed(s))
  {
    var o := Observed(i, r, now);
    ReportFrame(i, r, now);
    if r.finding.RuntimePrecheck? && GuaranteedReport(r) {
      PrecheckObservedIsGuaranteed(i, r);
    }
    if r.finding.RuntimePrecheck? {
      PrecheckObservedSettles(i, r.finding.result, r.finding.failures, r.success, r.eventAt);
    } else {
      MergeCodesAbsorbs(i.precheck.reasons, i.precheck.reasons);
    }
    StoringSettles(o);
  }

  // ---- Sync ----

  lemma NewInstanceIsSound(id: InstanceId, m: ModelView)
    ensures var s := Stored(NewInstance(id, m));
            && Sound(s) && s.id == id && s.modelId == m.id && s.lastPlan.plan.None?
            && !s.precheck.gating && Guaranteed(s)
  {
    MergeCodesAbsorbs([], []);
  }

  lemma {:induction false} CodesOntoDistinct(seen: seq<Code>, reasons: seq<Reason>)
    requires NoCode !in seen && forall j, k | 0 <= j < k < |seen| :: seen[j] != seen[k]
    ensures var cs := CodesOnto(seen, reasons);
            NoCode !in cs && forall j, k | 0 <= j < k < |cs| :: cs[j] != cs[k]
    decreases reasons
  {
    if reasons != [] {
      CodesOntoDistinct(AddCode(seen, reasons[0].code), reasons[1..]);
    }
  }

  lemma {:induction false} MergeDistinct(seen: seq<Code>, more: seq<Code>)
    requires NoCode !in more && forall j, k | 0 <= j < k < |more| :: more[j] != more[k]
    requires forall c | c in more :: c !in seen
    ensures MergeCodes(seen, more) == seen + more
    decreases more
  {
    if more != [] {
      var grown := AddCode(seen, more[0]);
      assert more[0] in more;
      assert grown == seen + [more[0]];
      forall c | c in more[1..] ensures c !in grown {
        assert c in more && c != more[0];
      }
      MergeDistinct(grown, more[1..]);
      assert seen + more == grown + more[1..];
    } else {
      assert seen + more == seen;
    }
  }

  lemma SettledCodesSurviveSync(reasons: seq<Reason>)
    ensures MergeCodes([], Codes(reasons)) == Codes(reasons)
  {
    CodesOntoDistinct([], reasons);
    MergeDistinct([], Codes(reasons));
    assert [] + Codes(reasons) == Codes(reasons);
  }

  /** A sync of a known instance keeps it sound and as gated and as planned as it was. */
  lemma SyncKeepsSound(e: Instance, m: ModelView)
    requires Sound(e)
    ensures var s := SyncedInstance(e, m);
            && Sound(s) && Stored(s) == s
            && s.precheck == e.precheck && s.lastPlan == e.lastPlan && s.id == e.id && s.modelId == e.modelId
            && s.conflict == e.conflict && s.gating == e.gating
  {
    if e.conflict.summary.Some? {
      SettledCodesSurviveSync(e.conflict.summary.value.reasons);
    }
    if e.gating.summary.Some? {
      SettledCodesSurviveSync(e.gating.summary.value.reasons);
    }
    SettledIsStored(SyncedInstance(e, m));
  }
}
