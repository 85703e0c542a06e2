/** What a reconcile makes of an instance's states and its readiness, exactly, and what a sweep
    makes of all of them. */
module ReadinessLaws {
  import opened Wrappers
  import opened RuntimeTypes
  import opened Conflict
  import opened Gating
  import opened Decisions
  import opened Reconcile
  import opened InstanceLaws
  import opened InstanceTable
  import opened ControlRuns
  import opened ControlInvariant
  import opened ControlTheorems

  /** A desired state that says something stays. One that says nothing is taken from the
      registered model, and is unknown if that says nothing either. An observed state is only
      named unknown if it is blank. */
  lemma PhasesAfterReconcile(i: Instance, others: seq<Instance>, trigger: Trigger, env: Env)
    ensures var r := Reconciled(i, others, trigger, env);
            && (i.desired != Blank && i.desired != UnknownPhase ==> r.desired == i.desired)
            && (i.desired == Blank || i.desired == UnknownPhase ==>
                  r.desired == if i.modelId in env.modelPhase && env.modelPhase[i.modelId] != Blank
                               then env.modelPhase[i.modelId] else UnknownPhase)
            && (i.observed != Blank ==> r.observed == i.observed)
            && (i.observed == Blank ==> r.observed == UnknownPhase)
  {
  }

  /** Nothing else about an instance changes but its decisions, its readiness, the time, and ports it
      has none of, which become those of its manifest. */
  lemma ReconcileTouchesOnly(i: Instance, others: seq<Instance>, trigger: Trigger, env: Env)
    ensures var r := Reconciled(i, others, trigger, env);
            && r == i.(desired := r.desired, observed := r.observed, hostPorts := r.hostPorts, readiness := r.readiness,
                       precheck := r.precheck, conflict := r.conflict, gating := r.gating, lastPlan := r.lastPlan,
                       lastReconciledAt := env.now)
            && (i.hostPorts != [] || i.manifest.None? ==> r.hostPorts == i.hostPorts)
            && (i.hostPorts == [] && i.manifest.Some? ==> r.hostPorts == i.manifest.value.hostPorts)
  {
  }

  predicate Starts(trigger: Trigger) {
    trigger == TaskStart || trigger == TaskRestart
  }

  /** A reconcile would load the instance: on request, or as it should run and does not. */
  predicate WouldLoad(r: Instance, trigger: Trigger) {
    Starts(trigger) || (trigger != TaskStop && r.desired == Running && r.observed != Running)
  }

  /** The load is refused: by the gate, by a failed precheck, or by the gating decision. */
  predicate LoadRefused(r: Instance, trigger: Trigger) {
    WouldLoad(r, trigger) && (r.precheck.gating || r.precheck.status == PrecheckFailed || !r.gating.allowed)
  }

  /** A reconcile never makes an instance ready. It leaves it ready exactly when no load is refused,
      it is not wanted stopped, and it runs if it is wanted running; readiness stays unknown exactly
      when no load is refused and it is not wanted running; else it is not ready. */
  lemma ReadinessExact(i: Instance, others: seq<Instance>, trigger: Trigger, env: Env)
    ensures var r := Reconciled(i, others, trigger, env);
            && (r.readiness == Ready
                <==> && i.readiness == Ready && !LoadRefused(r, trigger)
                     && r.desired != Stopped && (r.desired == Running ==> r.observed == Running))
            && (r.readiness == ReadinessUnknown
                <==> i.readiness == ReadinessUnknown && !LoadRefused(r, trigger) && r.desired != Running)
  {
    var p := Prepared(i, env);
    TargetMeaning(p.desired, p.observed, trigger);
  }

  predicate SameButPlan(a: Instance, b: Instance) {
    a == b.(lastPlan := a.lastPlan)
  }

  lemma OthersKeepAllButPlan(c: Control, id: InstanceId, trigger: Trigger, env: Env, o: InstanceId)
    requires Wellformed(c.table) && o in c.table.rows && o != id
    ensures var u := ReconcileControl(c, id, trigger, env).table;
            o in u.rows && SameButPlan(u.rows[o], c.table.rows[o])
  {
    if id in c.table.rows {
      ReconcileFrame(c.table, id, trigger, env);
    }
  }

  /** A sweep touches only the plans of rows it does not walk. */
  lemma {:induction false} UnsweptKeepAllButPlan(
    c: Control, ids: seq<InstanceId>, trigger: Trigger, env: Env, o: InstanceId)
    requires Wellformed(c.table) && o in c.table.rows && o !in ids
    ensures var u := SweepControl(c, ids, trigger, env).table;
            o in u.rows && SameButPlan(u.rows[o], c.table.rows[o])
    decreases |ids|
  {
    if ids != [] {
      assert ids[0] in ids;
      ReconcileKeepsWellformed(c.table, ids[0], trigger, env);
      OthersKeepAllButPlan(c, ids[0], trigger, env, o);
      UnsweptKeepAllButPlan(ReconcileControl(c, ids[0], trigger, env), ids[1..], trigger, env, o);
    }
  }

  /** A row as a sweep leaves it, from what it was before. */
  predicate SweptReadiness(before: Instance, after: Instance) {
    after.readiness == Ready
    <==> before.readiness == Ready && after.desired != Stopped && (after.desired == Running ==> after.observed == Running)
  }

  lemma ReconciledIsSwept(c: Control, id: InstanceId, trigger: Trigger, env: Env)
    requires Wellformed(c.table) && id in c.table.rows && !Starts(trigger)
    ensures var u := ReconcileControl(c, id, trigger, env).table;
            id in u.rows && SweptReadiness(c.table.rows[id], u.rows[id])
  {
    ReconcileFrame(c.table, id, trigger, env);
    ReadinessExact(c.table.rows[id], Listing(c.table), trigger, env);
  }

  lemma DistinctTail(ids: seq<InstanceId>)
    requires Distinct(ids) && ids != []
    ensures Distinct(ids[1..]) && ids[0] !in ids[1..]
  {
    assert forall k | 0 <= k < |ids[1..]| :: ids[1..][k] == ids[k + 1];
  }

  /** Over a whole sweep: a swept row is ready exactly if it was, is not wanted stopped, and runs if
      it is wanted running, whatever the others and the gates are. */
  lemma {:induction false} SweepReadinessExact(
    c: Control, ids: seq<InstanceId>, trigger: Trigger, env: Env, o: InstanceId)
    requires Wellformed(c.table) && o in c.table.rows && o in ids && Distinct(ids) && !Starts(trigger)
    ensures var u := SweepControl(c, ids, trigger, env).table;
            o in u.rows && SweptReadiness(c.table.rows[o], u.rows[o])
    decreases |ids|
  {
    var d := ReconcileControl(c, ids[0], trigger, env);
    ReconcileKeepsWellformed(c.table, ids[0], trigger, env);
    DistinctTail(ids);
    if o == ids[0] {
      ReconciledIsSwept(c, o, trigger, env);
      UnsweptKeepAllButPlan(d, ids[1..], trigger, env, o);
    } else {
      OthersKeepAllButPlan(c, ids[0], trigger, env, o);
      SweepReadinessExact(d, ids[1..], trigger, env, o);
    }
  }

  /** In particular a sweep as the controller makes it, of every row. */
  lemma SweepOfAllRows(c: Control, trigger: Trigger, env: Env, o: InstanceId)
    requires Wellformed(c.table) && o in c.table.rows && !Starts(trigger)
    ensures var u := SweepControl(c, c.table.order, trigger, env).table;
            o in u.rows && SweptReadiness(c.table.rows[o], u.rows[o])
  {
    SweepReadinessExact(c, c.table.order, trigger, env, o);
  }
}
