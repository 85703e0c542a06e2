/** Whole runs of the controller: reports, reconciles, sweeps, syncs, summary queries and task
    requests in any order, each an atomic step on the instance table. */
module ControlRuns {
  import opened Wrappers
  import opened RuntimeTypes
  import opened Conflict
  import opened Gating
  import opened Decisions
  import opened Reconcile
  import opened InstanceLaws
  import opened InstanceTable

  datatype RuntimeTask = RuntimeTask(kind: RuntimeTaskType, modelId: ModelId)

  /** The table, the runtime tasks stored so far, and one history variable: the instances that
      still hold a load plan they were granted while not observed running. */
  datatype Control = Control(table: Table, tasks: seq<RuntimeTask>, grants: set<InstanceId>)

  datatype Step =
    | ReportStep(id: InstanceId, report: Report, env: Env)
    | ReconcileStep(id: InstanceId, trigger: Trigger, env: Env)
    | SweepStep(trigger: Trigger, env: Env)
    | SyncStep(model: ModelView)
    | QueryStep(id: InstanceId, env: Env)
    | CreateTaskStep(kind: RuntimeTaskType, modelId: ModelId, env: Env)

  function GrantsAfter(c: Control, id: InstanceId, updated: Instance): set<InstanceId>
    requires id in c.table.rows
  {
    var kept := set g | g in c.grants && g != id && !Releases(TargetsOf(updated), id, g);
    if HoldsLoadGrant(updated) && !c.table.rows[id].observed.Running? then kept + {id} else kept
  }

  function ReconcileControl(c: Control, id: InstanceId, trigger: Trigger, env: Env): Control
    requires Wellformed(c.table)
  {
    if id !in c.table.rows then c
    else
      var updated := Reconciled(c.table.rows[id], Listing(c.table), trigger, env);
      c.(table := ReconcileOne(c.table, id, trigger, env), grants := GrantsAfter(c, id, updated))
  }

  function SweepControl(c: Control, ids: seq<InstanceId>, trigger: Trigger, env: Env): Control
    requires Wellformed(c.table)
    decreases |ids|
  {
    if ids == [] then c
    else
      ReconcileKeepsWellformed(c.table, ids[0], trigger, env);
      SweepControl(ReconcileControl(c, ids[0], trigger, env), ids[1..], trigger, env)
  }

  function SyncControl(c: Control, m: ModelView): Control
    requires Wellformed(c.table)
  {
    var known := FindByModel(Listing(c.table), m.id).Some?;
    c.(table := Sync(c.table, m), grants := if known then c.grants else c.grants - {InstanceIdFor(m.id)})
  }

  function QueryControl(c: Control, id: InstanceId, env: Env): Control
    requires Wellformed(c.table)
  {
    if id !in c.table.rows then c
    else
      var targets := TargetsOf(Reconciled(c.table.rows[id], Listing(c.table), SummaryQuery, env));
      c.(table := QuerySummary(c.table, id, env), grants := set g | g in c.grants && !Releases(targets, id, g))
  }

  function ReportControl(c: Control, id: InstanceId, r: Report, env: Env): Control
    requires Wellformed(c.table)
  {
    if id !in c.table.rows then c
    else
      var seen := Stored(Observed(c.table.rows[id], r, env.now));
      ReportFrame(c.table.rows[id], r, env.now);
      PutKeepsWellformed(c.table, seen);
      ReconcileControl(c.(table := Put(c.table, seen)), id, AgentTaskReport, env)
  }

  function TaskTrigger(kind: RuntimeTaskType): Trigger {
    match kind
    case RuntimeStart => TaskStart
    case RuntimeRestart => TaskRestart
    case RuntimeStop => TaskStop
    case RuntimeRefresh => TaskRefresh
  }

  predicate StartsRuntime(kind: RuntimeTaskType) {
    kind.RuntimeStart? || kind.RuntimeRestart?
  }

  /** Stores a task unless it starts the runtime of an instance that is refused to load. */
  function AdmitTask(c: Control, id: InstanceId, kind: RuntimeTaskType, m: ModelId): Control {
    if id in c.table.rows && StartsRuntime(kind) && !c.table.rows[id].gating.allowed then c
    else c.(tasks := c.tasks + [RuntimeTask(kind, m)])
  }

  /** A task request reconciles the model's instance first. A model without an instance is not
      gated at all. */
  function CreateTaskControl(c: Control, kind: RuntimeTaskType, m: ModelId, env: Env): Control
    requires Wellformed(c.table)
  {
    var found := FindByModel(Listing(c.table), m);
    if found.None? then c.(tasks := c.tasks + [RuntimeTask(kind, m)])
    else AdmitTask(ReconcileControl(c, found.value, TaskTrigger(kind), env), found.value, kind, m)
  }

  /** Syncs and requests without a model id do nothing. */
  function SyncNamed(c: Control, m: ModelView): Control
    requires Wellformed(c.table)
  {
    if m.id == "" then c else SyncControl(c, m)
  }

  function CreateNamedTask(c: Control, kind: RuntimeTaskType, m: ModelId, env: Env): Control
    requires Wellformed(c.table)
  {
    if m == "" then c else CreateTaskControl(c, kind, m, env)
  }

  function Apply(c: Control, s: Step): Control
    requires Wellformed(c.table)
  {
    match s
    case ReportStep(id, report, env) => ReportControl(c, id, report, env)
    case ReconcileStep(id, trigger, env) => ReconcileControl(c, id, trigger, env)
    case SweepStep(trigger, env) => SweepControl(c, c.table.order, trigger, env)
    case SyncStep(model) => SyncNamed(c, model)
    case QueryStep(id, env) => QueryControl(c, id, env)
    case CreateTaskStep(kind, m, env) => CreateNamedTask(c, kind, m, env)
  }

  // ---- The invariant ----

  ghost predicate AllSound(t: Table) {
    forall id | id in t.rows :: Sound(t.rows[id])
  }

  /** Every recorded grant is a load plan in force, and no two compete for one slot. */
  ghost predicate GrantsExclude(t: Table, grants: set<InstanceId>) {
    && (forall g | g in grants :: g in t.rows && HoldsLoadGrant(t.rows[g]))
    && (forall a, b | a in grants && b in grants && SameSlot(t.rows[a], t.rows[b]) :: a == b)
  }

  /** What every step keeps, whatever syncs do to the instances' places. */
  ghost predicate Base(c: Control) {
    Wellformed(c.table) && AllSound(c.table) && UniqueModels(c.table)
  }

  ghost predicate Invariant(c: Control) {
    Base(c) && GrantsExclude(c.table, c.grants)
  }

  predicate ProperStep(s: Step) {
    s.ReportStep? ==> ProperReport(s.report)
  }

  // ---- What a reconcile changes ----

  /** Who a reconcile of `id` sends an unload plan to: its rivals, when it is refused a load
      while not running. */
  predicate SendsRelease(t: Table, id: InstanceId, trigger: Trigger, env: Env, other: InstanceId)
    requires Wellformed(t) && id in t.rows && other in t.rows
  {
    var p := Prepared(t.rows[id], env);
    && IsLoadLike(TargetAction(p.desired, p.observed, trigger))
    && !Reconciled(t.rows[id], Listing(t), trigger, env).gating.allowed
    && !p.observed.Running?
    && Rival(t.rows[id], t.rows[other])
  }

  lemma ReleasesExactly(t: Table, id: InstanceId, trigger: Trigger, env: Env, other: InstanceId)
    requires Wellformed(t) && id in t.rows && other in t.rows
    ensures Releases(TargetsOf(Reconciled(t.rows[id], Listing(t), trigger, env)), id, other)
       <==> SendsRelease(t, id, trigger, env, other)
  {
    var others := Listing(t);
    ReleaseTargetsExact(t.rows[id], others, trigger, env, other);
    assert t.rows[other] in others;
    forall o | o in others && o.id == other ensures o == t.rows[other] {}
  }

  /** A reconcile changes its own row and its release targets' plans, and nothing else: each
      target keeps everything but its plan. */
  lemma ReconcileFrame(t: Table, id: InstanceId, trigger: Trigger, env: Env)
    requires Wellformed(t) && id in t.rows
    ensures var u := ReconcileOne(t, id, trigger, env);
            && u.order == t.order && u.rows.Keys == t.rows.Keys
            && u.rows[id] == Reconciled(t.rows[id], Listing(t), trigger, env)
            && forall o | o in t.rows && o != id ::
                 u.rows[o] == if SendsRelease(t, id, trigger, env, o) then Released(t.rows[o], id, env.now) else t.rows[o]
  {
    ReconcileKeepsWellformed(t, id, trigger, env);
    forall o | o in t.rows
      ensures Releases(TargetsOf(Reconciled(t.rows[id], Listing(t), trigger, env)), id, o)
         <==> SendsRelease(t, id, trigger, env, o)
    {
      ReleasesExactly(t, id, trigger, env, o);
    }
  }

  /** A summary query is not read-only: it leaves the queried row alone and sends the same
      release plans a reconcile would. */
  lemma QueryFrame(t: Table, id: InstanceId, env: Env)
    requires Wellformed(t) && id in t.rows
    ensures var u := QuerySummary(t, id, env);
            && u.order == t.order && u.rows.Keys == t.rows.Keys
            && u.rows[id] == t.rows[id]
            && forall o | o in t.rows && o != id ::
                 u.rows[o]
                 == if SendsRelease(t, id, SummaryQuery, env, o) then Released(t.rows[o], id, env.now) else t.rows[o]
  {
    forall o | o in t.rows
      ensures Releases(TargetsOf(Reconciled(t.rows[id], Listing(t), SummaryQuery, env)), id, o)
         <==> SendsRelease(t, id, SummaryQuery, env, o)
    {
      ReleasesExactly(t, id, SummaryQuery, env, o);
    }
  }
}
