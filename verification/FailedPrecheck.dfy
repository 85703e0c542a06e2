/** From a node's facts to the controller's refusals: the agent's precheck and the controller's
    gate put together. */
module FailedPrecheck {
  import opened Wrappers
  import opened RuntimeTypes
  import opened Reconcile
  import opened InstanceLaws
  import opened InstanceTable
  import opened ControlRuns
  import opened ControlInvariant
  import opened ControlTheorems
  import opened PrecheckTask

  /** What the agent reports after a precheck on some facts, as far as its contract says. */
  ghost predicate IsPrecheckReport(f: Facts, r: Report) {
    && r.eventAt != 0 && r.finding.RuntimePrecheck? && r.finding.result.Some?
    && var result := r.finding.result.value;
       && (r.success <==> !exists c :: Problem(f, c)) && result.gating == !r.success
       && !result.status.PrecheckUnset? && BlockingReasonsImplyGate(result) && NoCode !in r.finding.failures
  }

  lemma PrecheckReportGates(f: Facts, r: Report)
    requires IsPrecheckReport(f, r)
    ensures ProperReport(r) && GuaranteedReport(r)
    ensures GatingPrecheck(r) <==> exists c :: Problem(f, c)
  {
    PrecheckReportIsGuaranteed(r.finding.result.value, r.finding.failures, r.success, r.eventAt, r.nodeId, r.hostPorts,
                               r.observedState);
  }

  /** If the precheck of an instance finds anything wrong on its node, then after any history and
      through any steps the controller stores no start or restart of its model, until a later
      precheck finds nothing or a colliding sync takes its row. */
  lemma ProblemsPreventStarts(
    before: seq<Step>, id: InstanceId, f: Facts, c: Code, r: Report, env: Env, after: seq<Step>)
    requires AllProper(before) && AllProper(after) && id in Run(START, before).table.rows
    requires IsPrecheckReport(f, r) && Problem(f, c)
    requires !Ungated(Run(Run(START, before), [ReportStep(id, r, env)]), after, id)
    ensures var m := Run(START, before).table.rows[id].modelId;
            StartTasks(Run(Run(Run(START, before), [ReportStep(id, r, env)]), after).tasks, m)
            == StartTasks(Run(START, before).tasks, m)
  {
    PrecheckReportGates(f, r);
    PrecheckGatesUntilCleared(before, id, r, env, after);
  }

  /** A precheck on facts without problems lifts the gate. */
  lemma NoProblemsLiftTheGate(c: Control, id: InstanceId, f: Facts, r: Report, env: Env, m: ModelId)
    requires Base(c) && Gated(c.table, m, id) && IsPrecheckReport(f, r) && !exists x :: Problem(f, x)
    ensures !Gated(Apply(c, ReportStep(id, r, env)).table, m, id)
  {
    PrecheckReportGates(f, r);
    StepKeepsGateIff(c, ReportStep(id, r, env), m, id);
  }
}
