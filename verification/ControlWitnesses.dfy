/** Runs from the empty table that show the theorems about grants and gates are about something:
    a grant that is given, an exclusion that a sync breaks, and a gate that a sync opens. */
module ControlWitnesses {
  import opened Wrappers
  import opened RuntimeTypes
  import opened Conflict
  import opened Gating
  import opened Decisions
  import opened Reconcile
  import opened InstanceLaws
  import opened InstanceTable
  import opened ControlRuns
  import opened ControlInvariant
  import opened ControlTheorems
  import opened ControlRefusals

  lemma RunCons(c: Control, s: Step, rest: seq<Step>)
    requires Wellformed(c.table)
    ensures Wellformed(Apply(c, s).table) && Run(c, [s] + rest) == Run(Apply(c, s), rest)
  {
    ApplyKeepsWellformed(c, s);
    assert ([s] + rest)[1..] == rest;
  }

  lemma RunNone(c: Control)
    requires Wellformed(c.table)
    ensures Run(c, []) == c
  {
  }

  lemma ListTwo(s: Step, t: Step)
    ensures [s] + ([t] + []) == [s, t]
  {
  }

  lemma ListFour(s: Step, t: Step, u: Step, v: Step)
    ensures [s] + ([t] + [u, v]) == [s, t, u, v]
  {
  }

  lemma RunTwo(c: Control, s: Step, t: Step)
    requires Wellformed(c.table)
    ensures Wellformed(Apply(c, s).table) && Run(c, [s, t]) == Apply(Apply(c, s), t)
  {
    ListTwo(s, t);
    RunCons(c, s, [t] + []);
    RunCons(Apply(c, s), t, []);
    RunNone(Apply(Apply(c, s), t));
  }

  lemma RunFour(c: Control, s: Step, t: Step, u: Step, v: Step)
    requires Wellformed(c.table)
    ensures Wellformed(Apply(c, s).table) && Wellformed(Apply(Apply(c, s), t).table)
    ensures var d := Apply(Apply(c, s), t);
            Wellformed(Apply(d, u).table) && Run(c, [s, t, u, v]) == Apply(Apply(d, u), v)
  {
    ListFour(s, t, u, v);
    RunCons(c, s, [t] + [u, v]);
    RunCons(Apply(c, s), t, [u, v]);
    RunTwo(Apply(Apply(c, s), t), u, v);
  }

  // ---- A grant is given ----

  /** An idle model that wants to run, with nothing against it. */
  predicate WantsToRun(m: ModelView) {
    && m.id != "" && m.desired == Running && m.observed == Stopped
    && m.manifest.Some? && m.manifest.value.commandOverrideAllowed && m.manifest.value.scriptMountAllowed
  }

  /** The same of its instance, before anything was reported about it. */
  predicate Eager(i: Instance) {
    && Settled(i) && i.desired == Running && i.observed == Stopped
    && i.manifest.Some? && i.manifest.value.commandOverrideAllowed && i.manifest.value.scriptMountAllowed
    && !i.precheck.gating && i.precheck.summary.value.reasons == []
  }

  predicate Uncontested(i: Instance, others: seq<Instance>) {
    forall o | o in others :: !Competes(i, o)
  }

  lemma {:induction false} UncontestedHasNoPeers(i: Instance, others: seq<Instance>, wantsLoad: bool)
    requires Uncontested(i, others)
    ensures AllPeerReasons(i, others, wantsLoad) == []
  {
    if others != [] {
      UncontestedHasNoPeers(i, others[..|others| - 1], wantsLoad);
    }
  }

  lemma UncontestedIsAllowed(i: Instance, others: seq<Instance>, env: Env)
    requires Eager(i) && !env.agentService && Uncontested(i, others)
    ensures HoldsLoadGrant(Reconciled(i, others, Periodic, env))
  {
    PrecheckCarriesOver(i, env);
    var p := Prechecked(i, env);
    assert Uncontested(p, others) by {
      assert forall o | o in others :: Competes(p, o) == Competes(i, o);
    }
    OnlyDriftIsFound(p, others, SignalsOf(Prepared(i, env), env));
    RefusedIff(i, others, Periodic, env);
    AllowedLoadIsGranted(i, others, env);
  }

  lemma AllowedLoadIsGranted(i: Instance, others: seq<Instance>, env: Env)
    requires i.desired == Running && i.observed == Stopped && Judge(i, others, Periodic, env).gating.allowed
    ensures HoldsLoadGrant(Reconciled(i, others, Periodic, env))
  {
  }

  lemma OnlyDriftIsFound(p: Instance, others: seq<Instance>, signals: Signals)
    requires Uncontested(p, others) && p.precheck.reasons == [] && !signals.known && !signals.stale
    requires p.manifest.Some? && p.manifest.value.commandOverrideAllowed && p.manifest.value.scriptMountAllowed
    ensures !AnyBlocking(ConflictReasons(p, others, Load, signals))
  {
    UncontestedHasNoPeers(p, others, true);
    assert ConflictReasons(p, others, Load, signals) == DriftReasons(p);
  }

  predicate AloneOnNode(t: Table, id: InstanceId)
    requires id in t.rows
  {
    forall o | o in t.rows && o != id :: t.rows[o].nodeId != t.rows[id].nodeId
  }

  function PeriodicControl(c: Control, id: InstanceId, env: Env): Control
    requires Wellformed(c.table)
  {
    ReconcileControl(c, id, Periodic, env)
  }

  /** An eager instance alone on its node is granted its load, and nobody else is touched. */
  lemma AloneIsGranted(c: Control, id: InstanceId, env: Env)
    requires Wellformed(c.table) && id in c.table.rows && Eager(c.table.rows[id]) && AloneOnNode(c.table, id)
    requires !env.agentService
    ensures id in PeriodicControl(c, id, env).grants
  {
    var i := c.table.rows[id];
    forall o | o in Listing(c.table) ensures !Competes(i, o) {
      assert o.id in c.table.rows && c.table.rows[o.id] == o;
    }
    UncontestedIsAllowed(i, Listing(c.table), env);
  }

  predicate LeavesAlone(c: Control, d: Control, o: InstanceId) {
    && o in c.table.rows && o in d.table.rows && d.table.rows[o] == c.table.rows[o]
    && (o in d.grants <==> o in c.grants)
  }

  lemma AloneReleasesNobody(c: Control, id: InstanceId, env: Env, o: InstanceId)
    requires Wellformed(c.table) && id in c.table.rows && AloneOnNode(c.table, id) && o in c.table.rows && o != id
    ensures LeavesAlone(c, PeriodicControl(c, id, env), o)
  {
    ReconcileFrame(c.table, id, Periodic, env);
    GrantsRecorded(c, id, Periodic, env, o);
    assert !SendsRelease(c.table, id, Periodic, env, o);
  }

  lemma FirstRowIsEager(m: ModelView)
    requires WantsToRun(m)
    ensures Eager(Stored(NewInstance(InstanceIdFor(m.id), m)))
  {
    NewInstanceIsSound(InstanceIdFor(m.id), m);
  }

  lemma ApplySync(c: Control, m: ModelView)
    requires Wellformed(c.table) && m.id != ""
    ensures Apply(c, SyncStep(m)) == SyncControl(c, m)
  {
  }

  lemma ApplyPeriodic(c: Control, id: InstanceId, env: Env)
    requires Wellformed(c.table)
    ensures Wellformed(PeriodicControl(c, id, env).table)
    ensures Apply(c, ReconcileStep(id, Periodic, env)) == PeriodicControl(c, id, env)
  {
    ReconcileKeepsWellformed(c.table, id, Periodic, env);
  }

  /** A sync of an unknown model adds its row. */
  lemma NewSyncWrites(c: Control, m: ModelView)
    requires Invariant(c) && NoRowOf(c.table, m.id)
    ensures var row := Stored(NewInstance(InstanceIdFor(m.id), m));
            var d := SyncControl(c, m);
            Invariant(d) && d.table.rows == c.table.rows[row.id := row] && d.tasks == c.tasks
            && row.id == InstanceIdFor(m.id) && row.modelId == m.id
  {
    NewInstanceIsSound(InstanceIdFor(m.id), m);
    FoundIsRow(c.table, m.id);
    SyncWrites(c.table, m);
    SyncKeepsInvariantIff(c, m);
  }

  /** The first sync of a model writes one row. */
  lemma FirstSync(c: Control, m: ModelView)
    requires c == START && m.id != ""
    ensures var d := SyncControl(c, m);
            && Invariant(d) && d.tasks == []
            && d.table.rows == map[InstanceIdFor(m.id) := Stored(NewInstance(InstanceIdFor(m.id), m))]
            && d.table.rows[InstanceIdFor(m.id)].modelId == m.id
  {
    NewSyncWrites(c, m);
  }

  lemma FirstSyncIsAlone(c: Control, m: ModelView)
    requires c == START && m.id != ""
    ensures var d := SyncControl(c, m);
            && Base(d) && d.tasks == [] && d.table.rows.Keys == {InstanceIdFor(m.id)}
            && d.table.rows[InstanceIdFor(m.id)].modelId == m.id
  {
    FirstSync(c, m);
  }

  lemma FirstGrant(c: Control, m: ModelView, env: Env)
    requires c == START && WantsToRun(m) && !env.agentService
    ensures Wellformed(SyncControl(c, m).table)
    ensures InstanceIdFor(m.id) in PeriodicControl(SyncControl(c, m), InstanceIdFor(m.id), env).grants
  {
    FirstSync(c, m);
    FirstRowIsEager(m);
    AloneIsGranted(SyncControl(c, m), InstanceIdFor(m.id), env);
  }

  /** A lone model's first reconcile grants it. */
  lemma FirstReconcileGrants(m: ModelView, env: Env)
    requires WantsToRun(m) && !env.agentService
    ensures InstanceIdFor(m.id) in Run(START, [SyncStep(m), ReconcileStep(InstanceIdFor(m.id), Periodic, env)]).grants
  {
    FirstGrant(START, m, env);
    ApplySync(START, m);
    var id := InstanceIdFor(m.id);
    var c1 := SyncControl(START, m);
    ApplyPeriodic(c1, id, env);
    RunTwo(START, SyncStep(m), ReconcileStep(id, Periodic, env));
  }

  // ---- A sync breaks the exclusion of grants ----

  /** Two eager models of one known kind, each on a node of its own. */
  predicate TwoNodes(a: ModelView, b: ModelView) {
    && WantsToRun(a) && WantsToRun(b) && a.id != b.id && InstanceIdFor(a.id) != InstanceIdFor(b.id)
    && a.nodeId != "" && b.nodeId != "" && a.nodeId != b.nodeId
    && a.manifest.value.kind == b.manifest.value.kind != "" && a.manifest.value.kind != UNKNOWN_KIND
  }

  /** A model's row as its first sync writes it. */
  predicate Untouched(t: Table, m: ModelView) {
    var id := InstanceIdFor(m.id);
    && id in t.rows && Eager(t.rows[id]) && t.rows[id].nodeId == m.nodeId
    && t.rows[id].manifest == m.manifest && t.rows[id].modelId == m.id
  }

  lemma FirstRow(m: ModelView)
    requires WantsToRun(m) && m.nodeId != ""
    ensures var row := Stored(NewInstance(InstanceIdFor(m.id), m));
            && Eager(row) && row.nodeId == m.nodeId && row.manifest == m.manifest && row.modelId == m.id
            && row.id == InstanceIdFor(m.id)
  {
    NewInstanceIsSound(InstanceIdFor(m.id), m);
  }

  /** Both models synced and nothing else known. */
  predicate BothKnown(c: Control, a: ModelView, b: ModelView) {
    && c.table.rows.Keys == {InstanceIdFor(a.id), InstanceIdFor(b.id)}
    && Untouched(c.table, a) && Untouched(c.table, b)
  }

  lemma SyncBoth(c: Control, a: ModelView, b: ModelView)
    requires c == START && TwoNodes(a, b)
    ensures var d := SyncControl(c, a);
            Wellformed(d.table) && Invariant(SyncControl(d, b)) && BothKnown(SyncControl(d, b), a, b)
  {
    var rowA, rowB := Stored(NewInstance(InstanceIdFor(a.id), a)), Stored(NewInstance(InstanceIdFor(b.id), b));
    FirstSync(c, a);
    FirstRow(a);
    FirstRow(b);
    NewSyncWrites(SyncControl(c, a), b);
    TwoRowsAreKnown(SyncControl(SyncControl(c, a), b), rowA, rowB, a, b);
  }

  lemma TwoRowsAreKnown(c: Control, rowA: Instance, rowB: Instance, a: ModelView, b: ModelView)
    requires c.table.rows == map[rowA.id := rowA][rowB.id := rowB]
    requires rowA.id == InstanceIdFor(a.id) && rowB.id == InstanceIdFor(b.id) && rowA.id != rowB.id
    requires Eager(rowA) && rowA.nodeId == a.nodeId && rowA.manifest == a.manifest && rowA.modelId == a.id
    requires Eager(rowB) && rowB.nodeId == b.nodeId && rowB.manifest == b.manifest && rowB.modelId == b.id
    ensures BothKnown(c, a, b)
  {
  }

  /** A reconcile keeps the invariant, the ids and the place of its instance. */
  ghost predicate KeepsTable(c: Control, d: Control, id: InstanceId) {
    && Invariant(d) && d.table.rows.Keys == c.table.rows.Keys && id in c.table.rows
    && SamePlace(d.table.rows[id], c.table.rows[id])
  }

  lemma PeriodicKeepsTable(c: Control, id: InstanceId, env: Env)
    requires Invariant(c) && id in c.table.rows
    ensures KeepsTable(c, PeriodicControl(c, id, env), id)
  {
    ReconcileKeepsInvariant(c, id, Periodic, env);
    ReconcileKeepsRow(c.table, id, Periodic, env, id);
    ReconcileKeepsWellformed(c.table, id, Periodic, env);
  }

  /** Two instances on two nodes, the only ones known. */
  predicate OnTwoNodes(t: Table, id: InstanceId, o: InstanceId) {
    && t.rows.Keys == {id, o} && id != o && t.rows[id].nodeId != t.rows[o].nodeId
  }

  /** One of two instances is granted its load, and nothing is done to the other. */
  lemma GrantOne(c: Control, id: InstanceId, o: InstanceId, env: Env)
    requires Invariant(c) && OnTwoNodes(c.table, id, o) && Eager(c.table.rows[id]) && !env.agentService
    ensures var d := PeriodicControl(c, id, env);
            KeepsTable(c, d, id) && LeavesAlone(c, d, o) && id in d.grants
  {
    TwoNodesAreAlone(c.table, id, o);
    PeriodicKeepsTable(c, id, env);
    AloneIsGranted(c, id, env);
    AloneReleasesNobody(c, id, env, o);
  }

  lemma TwoNodesAreAlone(t: Table, id: InstanceId, o: InstanceId)
    requires OnTwoNodes(t, id, o)
    ensures id in t.rows && o in t.rows && AloneOnNode(t, id)
  {
  }

  /** After the first grant it is the other's turn. */
  lemma OthersTurn(c: Control, d: Control, id: InstanceId, o: InstanceId)
    requires OnTwoNodes(c.table, id, o) && KeepsTable(c, d, id) && LeavesAlone(c, d, o) && Eager(c.table.rows[o])
    ensures Invariant(d) && OnTwoNodes(d.table, o, id) && Eager(d.table.rows[o])
  {
  }

  ghost predicate BothGranted(c: Control, e: Control, idA: InstanceId, idB: InstanceId)
    requires idA in c.table.rows && idB in c.table.rows
  {
    && Invariant(e) && e.table.rows.Keys == {idA, idB} && idA in e.grants && idB in e.grants
    && SamePlace(e.table.rows[idA], c.table.rows[idA]) && SamePlace(e.table.rows[idB], c.table.rows[idB])
  }

  lemma GrantedInTurn(c: Control, d: Control, e: Control, idA: InstanceId, idB: InstanceId)
    requires OnTwoNodes(c.table, idA, idB)
    requires KeepsTable(c, d, idA) && LeavesAlone(c, d, idB) && idA in d.grants
    requires KeepsTable(d, e, idB) && LeavesAlone(d, e, idA) && idB in e.grants
    ensures BothGranted(c, e, idA, idB)
  {
  }

  lemma GrantBoth(c: Control, d: Control, e: Control, idA: InstanceId, idB: InstanceId, env: Env)
    requires Invariant(c) && OnTwoNodes(c.table, idA, idB) && Eager(c.table.rows[idA]) && Eager(c.table.rows[idB])
    requires !env.agentService && d == PeriodicControl(c, idA, env)
    requires Wellformed(d.table) && e == PeriodicControl(d, idB, env)
    ensures BothGranted(c, e, idA, idB)
  {
    GrantOne(c, idA, idB, env);
    OthersTurn(c, d, idA, idB);
    GrantOne(d, idB, idA, env);
    GrantedInTurn(c, d, e, idA, idB);
  }

  /** A sync that moves one granted instance into the slot of another. */
  ghost predicate Moves(c: Control, moved: ModelView, id: InstanceId, o: InstanceId) {
    && Invariant(c) && id in c.grants && o in c.grants && id != o
    && c.table.rows[id].modelId == moved.id && moved.nodeId == c.table.rows[o].nodeId != ""
    && moved.manifest == c.table.rows[id].manifest && KindKnown(c.table.rows[o])
    && Kind(c.table.rows[id]) == Kind(c.table.rows[o])
  }

  lemma MoveWrites(c: Control, moved: ModelView, id: InstanceId, o: InstanceId)
    requires Moves(c, moved, id, o)
    ensures FindByModel(Listing(c.table), moved.id) == Some(id)
    ensures SameSlot(SyncedInstance(c.table.rows[id], moved), c.table.rows[o])
  {
    FoundIsRow(c.table, moved.id);
  }

  lemma MoveBreaksExclusion(c: Control, moved: ModelView, id: InstanceId, o: InstanceId)
    requires Moves(c, moved, id, o)
    ensures Broken(c, moved, id, o)
  {
    MoveWrites(c, moved, id, o);
    SyncWrites(c.table, moved);
    SyncKeepsInvariantIff(c, moved);
  }

  /** The sync moves an instance against the condition on syncs, and afterwards two grants share a
      slot. */
  ghost predicate Broken(c: Control, moved: ModelView, id: InstanceId, o: InstanceId)
    requires Wellformed(c.table)
  {
    var d := SyncControl(c, moved);
    && !SyncStays(c, moved) && !Invariant(d)
    && id != o && id in d.grants && o in d.grants && id in d.table.rows && o in d.table.rows
    && SameSlot(d.table.rows[id], d.table.rows[o])
  }

  /** Of two models granted on two nodes, the first one can move to the second one's. */
  lemma GrantedCanMove(c: Control, e: Control, a: ModelView, b: ModelView)
    requires TwoNodes(a, b) && BothKnown(c, a, b) && BothGranted(c, e, InstanceIdFor(a.id), InstanceIdFor(b.id))
    ensures Moves(e, a.(nodeId := b.nodeId), InstanceIdFor(a.id), InstanceIdFor(b.id))
  {
  }

  /** The run that breaks the exclusion of idle load grants: two models of one kind granted on two
      nodes, then one of them synced onto the other's node. Up to that sync the invariant holds. */
  lemma MovingSyncBreaksExclusion(a: ModelView, b: ModelView, env: Env)
    requires TwoNodes(a, b) && !env.agentService
    ensures var idA, idB := InstanceIdFor(a.id), InstanceIdFor(b.id);
            var c := Run(START, [SyncStep(a), SyncStep(b),
                                 ReconcileStep(idA, Periodic, env), ReconcileStep(idB, Periodic, env)]);
            Invariant(c) && Broken(c, a.(nodeId := b.nodeId), idA, idB)
  {
    var idA, idB := InstanceIdFor(a.id), InstanceIdFor(b.id);
    SyncBoth(START, a, b);
    ApplySync(START, a);
    var c1 := SyncControl(START, a);
    ApplySync(c1, b);
    var c2 := SyncControl(c1, b);
    ApplyPeriodic(c2, idA, env);
    var c3 := PeriodicControl(c2, idA, env);
    ApplyPeriodic(c3, idB, env);
    RunFour(START, SyncStep(a), SyncStep(b), ReconcileStep(idA, Periodic, env), ReconcileStep(idB, Periodic, env));
    var c4 := PeriodicControl(c3, idB, env);
    GrantBoth(c2, c3, c4, idA, idB, env);
    GrantedCanMove(c2, c4, a, b);
    MoveBreaksExclusion(c4, a.(nodeId := b.nodeId), idA, idB);
  }

  // ---- A sync opens a gate ----

  /** A model is synced and its precheck gates. */
  lemma GatedAtFirst(c: Control, m: ModelView, r: Report, env: Env)
    requires c == START && m.id != "" && ProperReport(r) && GatingPrecheck(r)
    ensures var id := InstanceIdFor(m.id);
            Wellformed(SyncControl(c, m).table) &&
            var d := ReportControl(SyncControl(c, m), id, r, env);
            Base(d) && Gated(d.table, m.id, id) && d.tasks == [] && d.table.rows.Keys == {id}
  {
    FirstSyncIsAlone(c, m);
    ReportGatesInstance(SyncControl(c, m), InstanceIdFor(m.id), r, env);
  }

  lemma OnlyRowIsDisplaced(t: Table, m: ModelId, id: InstanceId, other: ModelView)
    requires Wellformed(t) && Gated(t, m, id) && t.rows.Keys == {id}
    requires other.id != m && InstanceIdFor(other.id) == id
    ensures Displaces(t, other, id)
  {
    FoundIsRow(t, other.id);
  }

  /** With one gated instance, a sync of another model whose id folds to the same. */
  lemma CollisionOpensGate(c: Control, m: ModelId, id: InstanceId, other: ModelView, env: Env)
    requires Base(c) && Gated(c.table, m, id) && c.table.rows.Keys == {id} && c.tasks == []
    requires other.id != m && InstanceIdFor(other.id) == id
    ensures CreateTaskControl(c, RuntimeStart, m, env).tasks == []
    ensures var d := SyncControl(c, other);
            Wellformed(d.table) && CreateTaskControl(d, RuntimeStart, m, env).tasks == [RuntimeTask(RuntimeStart, m)]
  {
    OnlyRowIsDisplaced(c.table, m, id, other);
    CollidingSyncOpensGate(c, m, id, other, env);
  }

  lemma ApplyReport(c: Control, id: InstanceId, r: Report, env: Env)
    requires Wellformed(c.table)
    ensures Apply(c, ReportStep(id, r, env)) == ReportControl(c, id, r, env)
  {
  }

  /** The start that is refused. */
  lemma GatedStartIsRefused(a: ModelView, r: Report, env: Env)
    requires a.id != "" && ProperReport(r) && GatingPrecheck(r)
    ensures Apply(Run(START, [SyncStep(a), ReportStep(InstanceIdFor(a.id), r, env)]),
                  CreateTaskStep(RuntimeStart, a.id, env)).tasks == []
  {
    var id := InstanceIdFor(a.id);
    GatedAtFirst(START, a, r, env);
    ApplySync(START, a);
    var c1 := SyncControl(START, a);
    ApplyReport(c1, id, r, env);
    var c2 := ReportControl(c1, id, r, env);
    ApplyRequest(c2, RuntimeStart, a.id, env);
    GatedTaskIsRefused(c2, RuntimeStart, a.id, env, id);
    RunTwo(START, SyncStep(a), ReportStep(id, r, env));
  }

  /** And the one that is stored, after a sync of the second model. */
  lemma CollidingSyncStoresStart(a: ModelView, b: ModelView, r: Report, env: Env)
    requires a.id != "" && b.id != "" && a.id != b.id && InstanceIdFor(a.id) == InstanceIdFor(b.id)
    requires ProperReport(r) && GatingPrecheck(r)
    ensures Run(START, [SyncStep(a), ReportStep(InstanceIdFor(a.id), r, env), SyncStep(b),
                        CreateTaskStep(RuntimeStart, a.id, env)]).tasks == [RuntimeTask(RuntimeStart, a.id)]
  {
    var id := InstanceIdFor(a.id);
    GatedAtFirst(START, a, r, env);
    ApplySync(START, a);
    var c1 := SyncControl(START, a);
    ApplyReport(c1, id, r, env);
    var c2 := ReportControl(c1, id, r, env);
    ApplySync(c2, b);
    CollisionOpensGate(c2, a.id, id, b, env);
    ApplyRequest(SyncControl(c2, b), RuntimeStart, a.id, env);
    RunFour(START, SyncStep(a), ReportStep(id, r, env), SyncStep(b), CreateTaskStep(RuntimeStart, a.id, env));
  }

  /** The run that opens a gate: two model ids that fold to one instance id, the first model's
      precheck gates, and the second one is synced. A start of the first, refused before that sync,
      is stored after it. */
  lemma CollidingSyncStartsGatedModel(a: ModelView, b: ModelView, r: Report, env: Env)
    requires a.id != "" && b.id != "" && a.id != b.id && InstanceIdFor(a.id) == InstanceIdFor(b.id)
    requires ProperReport(r) && GatingPrecheck(r)
    ensures var s, t := SyncStep(a), ReportStep(InstanceIdFor(a.id), r, env);
            var start := CreateTaskStep(RuntimeStart, a.id, env);
            && Apply(Run(START, [s, t]), start).tasks == []
            && Run(START, [s, t, SyncStep(b), start]).tasks == [RuntimeTask(RuntimeStart, a.id)]
  {
    GatedStartIsRefused(a, r, env);
    CollidingSyncStoresStart(a, b, r, env);
  }

  // ---- Both happen ----

  function Example(id: ModelId, node: NodeId): ModelView {
    ModelView(id, Running, Stopped, NotReady, node, "", Some(Manifest("vllm", [], true, true, false, false)), [], 0, 1)
  }

  /** Concrete inputs of both runs. */
  lemma BothRunsExist()
    ensures TwoNodes(Example("a/b", "n1"), Example("a-c", "n2"))
    ensures InstanceIdFor("a/b") == InstanceIdFor("a-b")
    ensures var r := Report(RuntimePrecheck(None, []), false, 1, "", [], Blank);
            ProperReport(r) && GatingPrecheck(r)
  {
    FoldedIdsCollide();
    FoldThree('a', '-', 'c');
    assert InstanceIdFor("a/b")[5] == 'b' && InstanceIdFor("a-c")[5] == 'c' && "a/b"[1] == '/' && "a-c"[1] == '-';
    assert "n1"[1] == '1' && "n2"[1] == '2';
    assert |"vllm"| != |UNKNOWN_KIND|;
  }
}
