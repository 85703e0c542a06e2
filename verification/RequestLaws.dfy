/** What a request for a runtime task and a model sync come to, exactly. */
module RequestLaws {
  import opened Wrappers
  import opened RuntimeTypes
  import opened Conflict
  import opened Decisions
  import opened Reconcile
  import opened InstanceLaws
  import opened InstanceTable
  import opened ControlRuns
  import opened ControlInvariant
  import opened ControlTheorems

  // ---- Requests ----

  /** A request for a model with an instance reconciles that, and is refused if it would start the
      runtime and the load was refused. */
  lemma RequestReconciles(c: Control, kind: RuntimeTaskType, m: ModelId, env: Env, id: InstanceId)
    requires Wellformed(c.table) && FindByModel(Listing(c.table), m) == Some(id)
    ensures var d := CreateTaskControl(c, kind, m, env);
            && id in c.table.rows && id in d.table.rows
            && d.table.rows[id] == Reconciled(c.table.rows[id], Listing(c.table), TaskTrigger(kind), env)
            && var refused := (kind == RuntimeStart || kind == RuntimeRestart) && !d.table.rows[id].gating.allowed;
               d.tasks == if refused then c.tasks else c.tasks + [RuntimeTask(kind, m)]
  {
    FoundIsRow(c.table, m);
    ReconcileFrame(c.table, id, TaskTrigger(kind), env);
    AdmittingKeepsTable(ReconcileControl(c, id, TaskTrigger(kind), env), id, kind, m);
  }

  /** A request is stored exactly unless it would start the runtime of a model whose instance, having
      just been reconciled for it, is refused its load. */
  lemma RequestIsStoredIff(c: Control, kind: RuntimeTaskType, m: ModelId, env: Env)
    requires Wellformed(c.table) && m != ""
    ensures var d := Apply(c, CreateTaskStep(kind, m, env));
            var found := FindByModel(Listing(c.table), m);
            var refused := && (kind == RuntimeStart || kind == RuntimeRestart)
                           && found.Some? && found.value in d.table.rows && !d.table.rows[found.value].gating.allowed;
            d.tasks == if refused then c.tasks else c.tasks + [RuntimeTask(kind, m)]
  {
    ApplyRequest(c, kind, m, env);
    var found := FindByModel(Listing(c.table), m);
    if found.Some? {
      RequestReconciles(c, kind, m, env, found.value);
    }
  }

  /** What a reconcile for a request leaves its instance planning: for a start or restart a load, for
      a stop an unload, which is always granted, and for a refresh what its states ask for. */
  lemma RequestedPlan(i: Instance, others: seq<Instance>, kind: RuntimeTaskType, env: Env)
    ensures var r := Reconciled(i, others, TaskTrigger(kind), env);
            && (kind == RuntimeStart || kind == RuntimeRestart ==> r.lastPlan.action == Load)
            && (kind == RuntimeStop ==> r.lastPlan.action == Unload && r.lastPlan.status == Planned)
            && (kind == RuntimeRefresh ==>
                  && (r.lastPlan.action == Load <==> r.desired == Running && r.observed != Running)
                  && (r.lastPlan.action == Unload <==> r.desired == Stopped && r.observed == Running))
  {
    PlanFollowsTarget(i, others, TaskTrigger(kind), env);
  }

  lemma RequestPlans(c: Control, kind: RuntimeTaskType, m: ModelId, env: Env, id: InstanceId)
    requires Wellformed(c.table) && FindByModel(Listing(c.table), m) == Some(id)
    ensures var d := CreateTaskControl(c, kind, m, env);
            && id in d.table.rows
            && var plan := d.table.rows[id].lastPlan;
               && (kind == RuntimeStart || kind == RuntimeRestart ==> plan.action == Load)
               && (kind == RuntimeStop ==> plan.action == Unload && plan.status == Planned)
  {
    RequestReconciles(c, kind, m, env, id);
    RequestedPlan(c.table.rows[id], Listing(c.table), kind, env);
  }

  // ---- Syncs ----

  /** Where a sync puts an instance: where the model is bound, else where it is known to be, else on
      the fallback node. */
  predicate PlacedBy(m: ModelView, known: NodeId, node: NodeId) {
    && (m.nodeId != "" ==> node == m.nodeId)
    && (m.nodeId == "" && known != "" ==> node == known)
    && (m.nodeId == "" && known == "" ==> node == m.fallbackNode)
  }

  /** A known instance takes what it should be and where it runs from the model, and keeps what was
      observed of it as long as anything was. */
  lemma SyncOfKnownModel(e: Instance, m: ModelView)
    ensures var s := SyncedInstance(e, m);
            && s.desired == m.desired && s.manifest == m.manifest && PlacedBy(m, e.nodeId, s.nodeId)
            && (e.observed != Blank ==> s.observed == e.observed)
            && (e.observed == Blank ==> s.observed == m.observed)
            && (e.readiness != ReadinessUnknown ==> s.readiness == e.readiness)
            && (e.readiness == ReadinessUnknown ==> s.readiness == m.readiness)
            && s.hostPorts == (if e.hostPorts == [] then m.hostPorts else e.hostPorts)
            && s.lastAgentTaskAt == e.lastAgentTaskAt && s.lastPrecheckAt == e.lastPrecheckAt
            && s.precheckedByAgent == e.precheckedByAgent
            && s.lastReconciledAt >= e.lastReconciledAt && s.lastReconciledAt >= m.lastReconciledAt
  {
  }

  /** A new instance is all the model says. */
  lemma SyncOfNewModel(id: InstanceId, m: ModelView)
    ensures var s := Stored(NewInstance(id, m));
            && s.desired == m.desired && s.observed == m.observed && s.readiness == m.readiness
            && s.manifest == m.manifest && s.hostPorts == m.hostPorts && PlacedBy(m, "", s.nodeId)
            && s.lastReconciledAt == (if m.lastReconciledAt == 0 then m.syncedAt else m.lastReconciledAt)
            && s.precheck.status == PrecheckUnknown && s.conflict.status == ConflictUnset
            && s.gating.status == GatingUnset && !s.gating.allowed
  {
  }

  /** Syncing the same view of a model again changes nothing. */
  lemma SyncTwiceIsOnce(e: Instance, m: ModelView)
    requires Sound(e)
    ensures SyncedInstance(SyncedInstance(e, m), m) == SyncedInstance(e, m)
  {
    var s := SyncedInstance(e, m);
    SyncKeepsSound(e, m);
    SyncKeepsSound(s, m);
    NewerTwice(e.lastReconciledAt, m.lastReconciledAt);
  }

  lemma NewerTwice(a: Time, b: Time)
    ensures NewerTime(NewerTime(a, b), b) == NewerTime(a, b)
  {
  }

  /** The row a sync leaves is the one said above: the merged row of a known model, or a new one. */
  lemma SyncLeaves(c: Control, m: ModelView)
    requires Base(c) && m.id != ""
    ensures var d := SyncControl(c, m);
            var found := FindByModel(Listing(c.table), m.id);
            && var id := if found.Some? then found.value else InstanceIdFor(m.id);
               && id in d.table.rows
               && d.table.rows == c.table.rows[id := d.table.rows[id]]
               && d.table.rows[id].desired == m.desired && d.table.rows[id].manifest == m.manifest
               && d.table.rows[id].modelId == m.id
  {
    SyncWrites(c.table, m);
    FoundIsRow(c.table, m.id);
    var found := FindByModel(Listing(c.table), m.id);
    if found.Some? {
      SyncOfKnownModel(c.table.rows[found.value], m);
    } else {
      NewInstanceIsSound(InstanceIdFor(m.id), m);
      SyncOfNewModel(InstanceIdFor(m.id), m);
    }
  }
}
