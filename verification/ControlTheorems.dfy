/** What holds over whole runs of the controller: one idle load grant per slot, and no start of
    a model whose precheck gates. */
module ControlTheorems {
  import opened Wrappers
  import opened RuntimeTypes
  import opened Conflict
  import opened Gating
  import opened Decisions
  import opened Reconcile
  import opened InstanceLaws
  import opened InstanceTable
  import opened ControlRuns
  import opened ControlInvariant

  function Run(c: Control, steps: seq<Step>): (r: Control)
    requires Wellformed(c.table)
    ensures Wellformed(r.table)
    decreases |steps|
  {
    if steps == [] then c
    else
      ApplyKeepsWellformed(c, steps[0]);
      Run(Apply(c, steps[0]), steps[1..])
  }

  lemma ReportKeepsWellformed(t: Table, id: InstanceId, r: Report, env: Env)
    requires Wellformed(t) && id in t.rows
    ensures var seen := SeenRow(t, id, r, env);
            && seen.id == id && Wellformed(Put(t, seen))
            && Wellformed(ReconcileOne(Put(t, seen), id, AgentTaskReport, env))
            && ReconcileOne(Put(t, seen), id, AgentTaskReport, env).rows.Keys == t.rows.Keys
  {
    ReportFrame(t.rows[id], r, env.now);
    PutKeepsWellformed(t, SeenRow(t, id, r, env));
    ReconcileKeepsWellformed(Put(t, SeenRow(t, id, r, env)), id, AgentTaskReport, env);
  }

  lemma SyncKeepsWellformed(t: Table, m: ModelView)
    requires Wellformed(t)
    ensures Wellformed(Sync(t, m))
  {
    var found := FindByModel(Listing(t), m.id);
    FoundIsRow(t, m.id);
    if found.Some? {
      PutKeepsWellformed(t, Stored(SyncedInstance(t.rows[found.value], m)));
    } else {
      PutKeepsWellformed(t, Stored(NewInstance(InstanceIdFor(m.id), m)));
    }
  }

  lemma CreateTaskKeepsWellformed(c: Control, kind: RuntimeTaskType, m: ModelId, env: Env)
    requires Wellformed(c.table)
    ensures Wellformed(CreateTaskControl(c, kind, m, env).table)
    ensures CreateTaskControl(c, kind, m, env).table.rows.Keys == c.table.rows.Keys
  {
    var found := FindByModel(Listing(c.table), m);
    if found.Some? {
      ReconcileKeepsWellformed(c.table, found.value, TaskTrigger(kind), env);
      AdmittingKeepsTable(ReconcileControl(c, found.value, TaskTrigger(kind), env), found.value, kind, m);
    }
  }

  lemma NamedSyncKeepsWellformed(c: Control, m: ModelView)
    requires Wellformed(c.table)
    ensures Wellformed(SyncNamed(c, m).table)
  {
    if m.id != "" {
      SyncKeepsWellformed(c.table, m);
    }
  }

  lemma NamedTaskKeepsWellformed(c: Control, kind: RuntimeTaskType, m: ModelId, env: Env)
    requires Wellformed(c.table)
    ensures var u := CreateNamedTask(c, kind, m, env).table;
            Wellformed(u) && u.rows.Keys == c.table.rows.Keys
  {
    if m != "" {
      CreateTaskKeepsWellformed(c, kind, m, env);
    }
  }

  lemma QueryKeepsWellformed(c: Control, id: InstanceId, env: Env)
    requires Wellformed(c.table)
    ensures var u := QueryControl(c, id, env).table;
            Wellformed(u) && u.rows.Keys == c.table.rows.Keys
  {
    if id in c.table.rows {
      ReleaseKeepsWellformed(
        c.table, id, TargetsOf(Reconciled(c.table.rows[id], Listing(c.table), SummaryQuery, env)), env.now);
    }
  }

  lemma ReportControlKeepsWellformed(c: Control, id: InstanceId, r: Report, env: Env)
    requires Wellformed(c.table)
    ensures var u := ReportControl(c, id, r, env).table;
            Wellformed(u) && u.rows.Keys == c.table.rows.Keys
  {
    if id in c.table.rows {
      ReportKeepsWellformed(c.table, id, r, env);
    }
  }

  lemma ApplyKeepsWellformed(c: Control, s: Step)
    requires Wellformed(c.table)
    ensures Wellformed(Apply(c, s).table)
    ensures !s.SyncStep? ==> Apply(c, s).table.rows.Keys == c.table.rows.Keys
  {
    match s
    case ReportStep(id, report, env) => ReportControlKeepsWellformed(c, id, report, env);
    case ReconcileStep(id, trigger, env) => ReconcileKeepsWellformed(c.table, id, trigger, env);
    case SweepStep(trigger, env) => SweepKeepsWellformed(c, c.table.order, trigger, env);
    case SyncStep(model) => NamedSyncKeepsWellformed(c, model);
    case QueryStep(id, env) => QueryKeepsWellformed(c, id, env);
    case CreateTaskStep(kind, m, env) => NamedTaskKeepsWellformed(c, kind, m, env);
  }

  lemma {:induction false} SweepKeepsWellformed(c: Control, ids: seq<InstanceId>, trigger: Trigger, env: Env)
    requires Wellformed(c.table)
    ensures Wellformed(SweepControl(c, ids, trigger, env).table)
    ensures SweepControl(c, ids, trigger, env).table.rows.Keys == c.table.rows.Keys
    decreases |ids|
  {
    if ids != [] {
      ReconcileKeepsWellformed(c.table, ids[0], trigger, env);
      SweepKeepsWellformed(ReconcileControl(c, ids[0], trigger, env), ids[1..], trigger, env);
    }
  }

  // ---- One idle load grant per slot ----

  predicate AllProper(steps: seq<Step>) {
    forall s | s in steps :: ProperStep(s)
  }

  /** No sync along the run moves a granted instance into the slot of another grant. */
  ghost predicate RunStays(c: Control, steps: seq<Step>)
    requires Wellformed(c.table)
    decreases |steps|
  {
    steps == [] ||
    (ApplyKeepsWellformed(c, steps[0]);
     Stays(c, steps[0]) && RunStays(Apply(c, steps[0]), steps[1..]))
  }

  lemma {:induction false} RunKeepsBase(c: Control, steps: seq<Step>)
    requires Base(c) && AllProper(steps)
    ensures Base(Run(c, steps))
    decreases |steps|
  {
    if steps != [] {
      assert steps[0] in steps;
      StepKeepsBase(c, steps[0]);
      RunKeepsBase(Apply(c, steps[0]), steps[1..]);
    }
  }

  lemma {:induction false} RunKeepsInvariant(c: Control, steps: seq<Step>)
    requires Invariant(c) && AllProper(steps) && RunStays(c, steps)
    ensures Invariant(Run(c, steps))
    decreases |steps|
  {
    if steps != [] {
      assert steps[0] in steps;
      StepKeepsInvariant(c, steps[0]);
      RunKeepsInvariant(Apply(c, steps[0]), steps[1..]);
    }
  }

  const START := Control(Table([], map[]), [], {})

  /** From the empty table, in whatever order reports, reconciles, sweeps, syncs, queries and
      task requests come: of the instances on one node with one known kind, at most one holds a
      load plan it was granted while not observed running. */
  lemma OneIdleGrantPerSlot(steps: seq<Step>, a: InstanceId, b: InstanceId)
    requires AllProper(steps) && RunStays(START, steps)
    requires var c := Run(START, steps);
             a in c.grants && b in c.grants && a in c.table.rows && b in c.table.rows
             && SameSlot(c.table.rows[a], c.table.rows[b])
    ensures a == b
  {
    RunKeepsInvariant(START, steps);
  }

  /** A sync that leaves a known model's instance on its node with its manifest. */
  predicate KeepsPlace(c: Control, s: Step)
    requires Wellformed(c.table)
  {
    s.SyncStep? ==>
      var found := FindByModel(Listing(c.table), s.model.id);
      found.Some? && found.value in c.table.rows ==>
        var i := c.table.rows[found.value];
        s.model.manifest == i.manifest && SyncedNode(s.model, i.nodeId) == i.nodeId
  }

  lemma FixedPlaceStays(c: Control, s: Step)
    requires Invariant(c) && KeepsPlace(c, s)
    ensures Stays(c, s)
  {
    if s.SyncStep? {
      FoundIsRow(c.table, s.model.id);
    }
  }

  predicate PlacesFixed(c: Control, steps: seq<Step>)
    requires Wellformed(c.table)
    decreases |steps|
  {
    steps == [] ||
    (ApplyKeepsWellformed(c, steps[0]);
     KeepsPlace(c, steps[0]) && PlacesFixed(Apply(c, steps[0]), steps[1..]))
  }

  lemma {:induction false} FixedPlacesStay(c: Control, steps: seq<Step>)
    requires Invariant(c) && AllProper(steps) && PlacesFixed(c, steps)
    ensures RunStays(c, steps)
    decreases |steps|
  {
    if steps != [] {
      assert steps[0] in steps;
      FixedPlaceStays(c, steps[0]);
      StepKeepsInvariant(c, steps[0]);
      FixedPlacesStay(Apply(c, steps[0]), steps[1..]);
    }
  }

  /** In particular when syncs never move an instance: then any history keeps the slots apart. */
  lemma OneIdleGrantPerSlotWhenPlacesAreFixed(steps: seq<Step>, a: InstanceId, b: InstanceId)
    requires AllProper(steps) && PlacesFixed(START, steps)
    requires var c := Run(START, steps);
             a in c.grants && b in c.grants && a in c.table.rows && b in c.table.rows
             && SameSlot(c.table.rows[a], c.table.rows[b])
    ensures a == b
  {
    FixedPlacesStay(START, steps);
    OneIdleGrantPerSlot(steps, a, b);
  }

  /** In every reachable state, whatever the syncs, a gated instance is not ready. */
  lemma GatedIsNeverReady(steps: seq<Step>, id: InstanceId)
    requires AllProper(steps)
    requires var c := Run(START, steps); id in c.table.rows && c.table.rows[id].precheck.gating
    ensures Run(START, steps).table.rows[id].readiness == NotReady
  {
    RunKeepsBase(START, steps);
  }

  // ---- Readiness right after a reconcile or a sweep ----

  predicate ReadyOnlyIfRunning(i: Instance) {
    i.readiness == Ready && (i.desired == Running || i.desired == Stopped)
    ==> i.desired == Running && i.observed == Running
  }

  /** A reconcile makes its own row ready only if running, and breaks that of no other row. */
  lemma ReconcileSettlesReadiness(t: Table, id: InstanceId, trigger: Trigger, env: Env, o: InstanceId)
    requires Wellformed(t) && id in t.rows && o in t.rows
    requires o == id || ReadyOnlyIfRunning(t.rows[o])
    ensures var u := ReconcileOne(t, id, trigger, env);
            o in u.rows && ReadyOnlyIfRunning(u.rows[o])
  {
    ReconcileFrame(t, id, trigger, env);
    if o == id {
      ReadyMeansRunning(t.rows[id], Listing(t), trigger, env);
    }
  }

  lemma ReconcileStepSettles(c: Control, id: InstanceId, trigger: Trigger, env: Env, o: InstanceId)
    requires Wellformed(c.table) && o in c.table.rows
    ensures var u := ReconcileControl(c, id, trigger, env).table;
            o in u.rows && (o == id || ReadyOnlyIfRunning(c.table.rows[o]) ==> ReadyOnlyIfRunning(u.rows[o]))
  {
    if id in c.table.rows {
      ReconcileKeepsWellformed(c.table, id, trigger, env);
      if o == id || ReadyOnlyIfRunning(c.table.rows[o]) {
        ReconcileSettlesReadiness(c.table, id, trigger, env, o);
      }
    }
  }

  /** After a sweep every swept row, and every row that was settled before, is settled. */
  lemma {:induction false} SweepSettlesReadiness(
    c: Control, ids: seq<InstanceId>, trigger: Trigger, env: Env, o: InstanceId)
    requires Wellformed(c.table) && o in c.table.rows
    requires o in ids || ReadyOnlyIfRunning(c.table.rows[o])
    ensures var u := SweepControl(c, ids, trigger, env).table;
            o in u.rows && ReadyOnlyIfRunning(u.rows[o])
    decreases |ids|
  {
    if ids != [] {
      ReconcileKeepsWellformed(c.table, ids[0], trigger, env);
      ReconcileStepSettles(c, ids[0], trigger, env, o);
      SweepSettlesReadiness(ReconcileControl(c, ids[0], trigger, env), ids[1..], trigger, env, o);
    }
  }

  // ---- The gate ----

  predicate Gated(t: Table, m: ModelId, id: InstanceId) {
    id in t.rows && t.rows[id].modelId == m && t.rows[id].precheck.gating
  }

  /** A sync of an unknown model whose derived instance id is already taken. */
  predicate Displaces(t: Table, m: ModelView, id: InstanceId)
    requires Wellformed(t)
  {
    FindByModel(Listing(t), m.id).None? && InstanceIdFor(m.id) == id
  }

  /** The two steps that lift the gate of an instance: a precheck report that clears it, and a
      sync of an unknown model whose derived instance id is the same. */
  predicate Ungates(c: Control, s: Step, id: InstanceId)
    requires Wellformed(c.table)
  {
    || (s.ReportStep? && s.id == id && ClearingPrecheck(s.report))
    || (s.SyncStep? && s.model.id != "" && Displaces(c.table, s.model, id))
  }

  predicate SameGate(t: Table, u: Table, id: InstanceId) {
    && id in t.rows && id in u.rows
    && u.rows[id].precheck.gating == t.rows[id].precheck.gating && u.rows[id].modelId == t.rows[id].modelId
    && (Guaranteed(t.rows[id]) ==> Guaranteed(u.rows[id]))
  }

  lemma ReconcileKeepsGate(t: Table, id: InstanceId, trigger: Trigger, env: Env, o: InstanceId)
    requires Wellformed(t) && id in t.rows && o in t.rows && Sound(t.rows[o])
    ensures SameGate(t, ReconcileOne(t, id, trigger, env), o)
  {
    ReconcileFrame(t, id, trigger, env);
    if o == id {
      ReconcileKeepsSound(t.rows[id], Listing(t), trigger, env);
    }
  }

  lemma ReconcileControlKeepsGate(c: Control, id: InstanceId, trigger: Trigger, env: Env, o: InstanceId)
    requires Base(c) && o in c.table.rows
    ensures SameGate(c.table, ReconcileControl(c, id, trigger, env).table, o)
  {
    if id in c.table.rows {
      ReconcileKeepsGate(c.table, id, trigger, env, o);
    }
  }

  lemma {:induction false} SweepKeepsGate(
    c: Control, ids: seq<InstanceId>, trigger: Trigger, env: Env, o: InstanceId)
    requires Base(c) && o in c.table.rows
    ensures SameGate(c.table, SweepControl(c, ids, trigger, env).table, o)
    decreases |ids|
  {
    if ids != [] {
      ReconcileControlKeepsGate(c, ids[0], trigger, env, o);
      ReconcileKeepsBase(c, ids[0], trigger, env);
      SweepKeepsGate(ReconcileControl(c, ids[0], trigger, env), ids[1..], trigger, env, o);
    }
  }

  lemma ReportKeepsSeenGate(c: Control, id: InstanceId, r: Report, env: Env, o: InstanceId)
    requires Base(c) && ProperReport(r) && id in c.table.rows && o in c.table.rows
    ensures SameGate(Put(c.table, SeenRow(c.table, id, r, env)), ReportControl(c, id, r, env).table, o)
  {
    ReportWritesRow(c, id, r, env);
    ReportIsReconcile(c, id, r, env);
    ReconcileControlKeepsGate(
      c.(table := Put(c.table, SeenRow(c.table, id, r, env))), id, AgentTaskReport, env, o);
  }

  /** The gate of row `o` after a report about row `id`. */
  predicate GateAfterReport(t: Table, u: Table, id: InstanceId, r: Report, o: InstanceId)
    requires o in t.rows
  {
    && o in u.rows && u.rows[o].modelId == t.rows[o].modelId
    && u.rows[o].precheck.gating
       == (if o == id && r.finding.RuntimePrecheck? then GatingPrecheck(r) else t.rows[o].precheck.gating)
    && (Guaranteed(t.rows[o]) && GuaranteedReport(r) ==> Guaranteed(u.rows[o]))
  }

  lemma SeenRowMovesGate(c: Control, id: InstanceId, r: Report, env: Env, o: InstanceId)
    requires Base(c) && ProperReport(r) && id in c.table.rows && o in c.table.rows
    ensures GateAfterReport(c.table, Put(c.table, SeenRow(c.table, id, r, env)), id, r, o)
  {
    ReportWritesRow(c, id, r, env);
  }

  lemma GateCarriesOver(t: Table, d: Table, u: Table, id: InstanceId, r: Report, o: InstanceId)
    requires o in t.rows && GateAfterReport(t, d, id, r, o) && SameGate(d, u, o)
    ensures GateAfterReport(t, u, id, r, o)
  {
  }

  lemma ReportMovesGate(c: Control, id: InstanceId, r: Report, env: Env, o: InstanceId)
    requires Base(c) && ProperReport(r) && id in c.table.rows && o in c.table.rows
    ensures GateAfterReport(c.table, ReportControl(c, id, r, env).table, id, r, o)
  {
    SeenRowMovesGate(c, id, r, env, o);
    ReportKeepsSeenGate(c, id, r, env, o);
    GateCarriesOver(c.table, Put(c.table, SeenRow(c.table, id, r, env)), ReportControl(c, id, r, env).table, id, r, o);
  }

  lemma PutMovesGate(t: Table, row: Instance, o: InstanceId)
    requires o in t.rows
    ensures o != row.id ==> SameGate(t, Put(t, row), o)
    ensures o == row.id && row.modelId == t.rows[o].modelId && row.precheck.gating == t.rows[o].precheck.gating
            && (Guaranteed(t.rows[o]) ==> Guaranteed(row))
            ==> SameGate(t, Put(t, row), o)
    ensures o == row.id ==> Put(t, row).rows[o] == row
  {
  }

  /** The gate of row `o` after a sync: gone if its row was replaced by another model's. */
  lemma SyncMovesGate(c: Control, m: ModelView, o: InstanceId)
    requires Base(c) && o in c.table.rows
    ensures var u := Sync(c.table, m);
            if Displaces(c.table, m, o) then u.rows[o].modelId == m.id && Guaranteed(u.rows[o])
            else SameGate(c.table, u, o)
  {
    SyncWrites(c.table, m);
    SyncRowGate(c.table, m);
    PutMovesGate(c.table, SyncRow(c.table, m), o);
  }

  lemma SyncRowGate(t: Table, m: ModelView)
    requires Wellformed(t) && AllSound(t)
    ensures var found := FindByModel(Listing(t), m.id);
            var r := SyncRow(t, m);
            if found.Some? then
              && found.value in t.rows && r.precheck.gating == t.rows[found.value].precheck.gating
              && (Guaranteed(t.rows[found.value]) ==> Guaranteed(r))
            else Guaranteed(r)
  {
    FoundIsRow(t, m.id);
    var found := FindByModel(Listing(t), m.id);
    if found.Some? {
      SyncKeepsSound(t.rows[found.value], m);
    } else {
      NewInstanceIsSound(InstanceIdFor(m.id), m);
    }
  }

  lemma ReleaseAllKeepsGate(t: Table, owner: InstanceId, targets: seq<InstanceId>, now: Time, o: InstanceId)
    requires o in t.rows
    ensures SameGate(t, ReleaseAll(t, owner, targets, now), o)
  {
  }

  lemma QueryKeepsGate(c: Control, id: InstanceId, env: Env, o: InstanceId)
    requires Wellformed(c.table) && o in c.table.rows
    ensures SameGate(c.table, QueryControl(c, id, env).table, o)
  {
    if id in c.table.rows {
      ReleaseAllKeepsGate(
        c.table, id, TargetsOf(Reconciled(c.table.rows[id], Listing(c.table), SummaryQuery, env)), env.now, o);
    }
  }

  lemma AdmittingKeepsTable(c: Control, id: InstanceId, kind: RuntimeTaskType, m: ModelId)
    ensures AdmitTask(c, id, kind, m).table == c.table
  {
  }

  lemma CreateTaskKeepsGate(c: Control, kind: RuntimeTaskType, m: ModelId, env: Env, o: InstanceId)
    requires Base(c) && o in c.table.rows
    ensures SameGate(c.table, CreateTaskControl(c, kind, m, env).table, o)
  {
    var found := FindByModel(Listing(c.table), m);
    if found.Some? {
      ReconcileControlKeepsGate(c, found.value, TaskTrigger(kind), env, o);
      AdmittingKeepsTable(ReconcileControl(c, found.value, TaskTrigger(kind), env), found.value, kind, m);
    }
  }

  lemma NamedTaskKeepsGate(c: Control, kind: RuntimeTaskType, m: ModelId, env: Env, o: InstanceId)
    requires Base(c) && o in c.table.rows
    ensures SameGate(c.table, CreateNamedTask(c, kind, m, env).table, o)
  {
    if m != "" {
      CreateTaskKeepsGate(c, kind, m, env, o);
    }
  }

  lemma OtherStepKeepsGate(c: Control, s: Step, o: InstanceId)
    requires Base(c) && o in c.table.rows && !s.ReportStep? && !s.SyncStep?
    ensures SameGate(c.table, Apply(c, s).table, o)
  {
    match s
    case ReconcileStep(j, trigger, env) => ReconcileControlKeepsGate(c, j, trigger, env, o);
    case SweepStep(trigger, env) => SweepKeepsGate(c, c.table.order, trigger, env, o);
    case QueryStep(j, env) => QueryKeepsGate(c, j, env, o);
    case CreateTaskStep(kind, m, env) => NamedTaskKeepsGate(c, kind, m, env, o);
  }

  /** A gated instance stays gated through every step but those two, and each of them lifts the
      gate. */
  lemma StepKeepsGateIff(c: Control, s: Step, m: ModelId, id: InstanceId)
    requires Base(c) && ProperStep(s) && Gated(c.table, m, id)
    ensures Gated(Apply(c, s).table, m, id) <==> !Ungates(c, s, id)
  {
    match s
    case ReportStep(j, report, env) =>
      if j in c.table.rows {
        ReportMovesGate(c, j, report, env, id);
      }
    case SyncStep(model) =>
      SyncMovesGate(c, model, id);
      FoundIsRow(c.table, model.id);
    case _ => OtherStepKeepsGate(c, s, id);
  }

  /** The tasks that start or restart a model, in the order they were stored. */
  function StartTasks(tasks: seq<RuntimeTask>, m: ModelId): seq<RuntimeTask> {
    if tasks == [] then []
    else
      var last := tasks[|tasks| - 1];
      StartTasks(tasks[..|tasks| - 1], m) + (if StartsRuntime(last.kind) && last.modelId == m then [last] else [])
  }

  lemma StartTasksSnoc(tasks: seq<RuntimeTask>, last: RuntimeTask, m: ModelId)
    ensures StartTasks(tasks + [last], m)
         == StartTasks(tasks, m) + (if StartsRuntime(last.kind) && last.modelId == m then [last] else [])
  {
    assert (tasks + [last])[..|tasks|] == tasks;
  }

  lemma {:induction false} SweepStoresNothing(c: Control, ids: seq<InstanceId>, trigger: Trigger, env: Env)
    requires Wellformed(c.table)
    ensures SweepControl(c, ids, trigger, env).tasks == c.tasks
    decreases |ids|
  {
    if ids != [] {
      ReconcileKeepsWellformed(c.table, ids[0], trigger, env);
      SweepStoresNothing(ReconcileControl(c, ids[0], trigger, env), ids[1..], trigger, env);
    }
  }

  lemma GatedTaskIsRefused(c: Control, kind: RuntimeTaskType, m: ModelId, env: Env, id: InstanceId)
    requires Base(c) && Gated(c.table, m, id) && StartsRuntime(kind)
    ensures CreateTaskControl(c, kind, m, env).tasks == c.tasks
  {
    FoundIsRow(c.table, m);
    assert FindByModel(Listing(c.table), m) == Some(id);
    ReconcileFrame(c.table, id, TaskTrigger(kind), env);
    GatedIsRefused(c.table.rows[id], Listing(c.table), TaskTrigger(kind), env);
  }

  lemma ApplyRequest(c: Control, kind: RuntimeTaskType, m: ModelId, env: Env)
    requires Wellformed(c.table) && m != ""
    ensures Apply(c, CreateTaskStep(kind, m, env)) == CreateTaskControl(c, kind, m, env)
  {
  }

  lemma CreateTaskStores(c: Control, kind: RuntimeTaskType, m: ModelId, env: Env)
    requires Wellformed(c.table)
    ensures var u := CreateTaskControl(c, kind, m, env);
            u.tasks == c.tasks || u.tasks == c.tasks + [RuntimeTask(kind, m)]
  {
    var found := FindByModel(Listing(c.table), m);
    if found.Some? {
      AdmittingStores(ReconcileControl(c, found.value, TaskTrigger(kind), env), found.value, kind, m);
    }
  }

  lemma AdmittingStores(c: Control, id: InstanceId, kind: RuntimeTaskType, m: ModelId)
    ensures var u := AdmitTask(c, id, kind, m);
            u.tasks == c.tasks || u.tasks == c.tasks + [RuntimeTask(kind, m)]
  {
  }

  /** No step stores a start or restart task for a gated model. */
  lemma GatedStepStartsNothing(c: Control, s: Step, m: ModelId, id: InstanceId)
    requires Base(c) && Gated(c.table, m, id)
    ensures StartTasks(Apply(c, s).tasks, m) == StartTasks(c.tasks, m)
  {
    match s
    case SweepStep(trigger, env) => SweepStoresNothing(c, c.table.order, trigger, env);
    case CreateTaskStep(kind, other, env) => RequestStartsNothing(c, kind, other, env, m, id);
    case _ => OtherStepsStoreNothing(c, s);
  }

  lemma OtherStepsStoreNothing(c: Control, s: Step)
    requires Wellformed(c.table) && !s.CreateTaskStep? && !s.SweepStep?
    ensures Apply(c, s).tasks == c.tasks
  {
  }

  lemma RequestStartsNothing(
    c: Control, kind: RuntimeTaskType, requested: ModelId, env: Env, m: ModelId, id: InstanceId)
    requires Base(c) && Gated(c.table, m, id)
    ensures StartTasks(CreateNamedTask(c, kind, requested, env).tasks, m) == StartTasks(c.tasks, m)
  {
    if requested != "" {
      CreateTaskStores(c, kind, requested, env);
      StartTasksSnoc(c.tasks, RuntimeTask(kind, requested), m);
      if StartsRuntime(kind) && requested == m {
        GatedTaskIsRefused(c, kind, m, env, id);
      }
    }
  }

  predicate Ungated(c: Control, steps: seq<Step>, id: InstanceId)
    requires Wellformed(c.table)
    decreases |steps|
  {
    steps != [] &&
    (ApplyKeepsWellformed(c, steps[0]);
     Ungates(c, steps[0], id) || Ungated(Apply(c, steps[0]), steps[1..], id))
  }

  /** While nothing lifts the gate, no run of any steps stores a start or restart task for the
      gated model. */
  lemma {:induction false} GateHolds(c: Control, steps: seq<Step>, m: ModelId, id: InstanceId)
    requires Base(c) && AllProper(steps) && Gated(c.table, m, id) && !Ungated(c, steps, id)
    ensures Gated(Run(c, steps).table, m, id)
    ensures StartTasks(Run(c, steps).tasks, m) == StartTasks(c.tasks, m)
    decreases |steps|
  {
    if steps != [] {
      assert steps[0] in steps;
      StepKeepsGateIff(c, steps[0], m, id);
      GatedStepStartsNothing(c, steps[0], m, id);
      StepKeepsBase(c, steps[0]);
      GateHolds(Apply(c, steps[0]), steps[1..], m, id);
    }
  }

  /** The report itself: it gates its instance and stores nothing. */
  lemma ReportGatesInstance(c: Control, id: InstanceId, r: Report, env: Env)
    requires Base(c) && id in c.table.rows && ProperReport(r) && GatingPrecheck(r)
    ensures var d := ReportControl(c, id, r, env);
            && Base(d) && Gated(d.table, c.table.rows[id].modelId, id) && d.tasks == c.tasks
            && d.table.rows.Keys == c.table.rows.Keys
  {
    ReportMovesGate(c, id, r, env, id);
    ReportKeepsBase(c, id, r, env);
    ReportControlKeepsWellformed(c, id, r, env);
    ReportStoresNothing(c, id, r, env);
  }

  lemma ReportStoresNothing(c: Control, id: InstanceId, r: Report, env: Env)
    requires Wellformed(c.table)
    ensures ReportControl(c, id, r, env).tasks == c.tasks
  {
  }

  lemma RunReport(c: Control, id: InstanceId, r: Report, env: Env)
    requires Wellformed(c.table)
    ensures Run(c, [ReportStep(id, r, env)]) == ReportControl(c, id, r, env)
  {
    ReportControlKeepsWellformed(c, id, r, env);
    assert [ReportStep(id, r, env)][1..] == [];
    assert Apply(c, ReportStep(id, r, env)) == ReportControl(c, id, r, env);
  }

  /** From a gating precheck report on, until one that clears it or a colliding sync, the
      controller stores no start or restart of the instance's model. */
  lemma PrecheckGatesUntilCleared(before: seq<Step>, id: InstanceId, r: Report, env: Env, after: seq<Step>)
    requires AllProper(before) && ProperReport(r) && GatingPrecheck(r) && AllProper(after)
    requires id in Run(START, before).table.rows
    requires !Ungated(Run(Run(START, before), [ReportStep(id, r, env)]), after, id)
    ensures var c := Run(START, before);
            var d := Run(Run(c, [ReportStep(id, r, env)]), after);
            StartTasks(d.tasks, c.table.rows[id].modelId) == StartTasks(c.tasks, c.table.rows[id].modelId)
  {
    var c := Run(START, before);
    RunKeepsBase(START, before);
    RunReport(c, id, r, env);
    ReportGatesInstance(c, id, r, env);
    GateHolds(ReportControl(c, id, r, env), after, c.table.rows[id].modelId, id);
  }
}
