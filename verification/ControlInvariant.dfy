/** Every controller step keeps the invariant. */
module ControlInvariant {
  import opened Wrappers
  import opened RuntimeTypes
  import opened Conflict
  import opened Gating
  import opened Decisions
  import opened Reconcile
  import opened InstanceLaws
  import opened InstanceTable
  import opened ControlRuns

  ghost predicate SamePlaces(t: Table, u: Table) {
    u.rows.Keys == t.rows.Keys && forall id | id in t.rows :: SamePlace(u.rows[id], t.rows[id])
  }

  lemma SamePlacesKeepUniqueModels(t: Table, u: Table)
    requires UniqueModels(t) && SamePlaces(t, u)
    ensures UniqueModels(u)
  {
    forall a, b | a in u.rows && b in u.rows && u.rows[a].modelId == u.rows[b].modelId ensures a == b {
      assert SamePlace(u.rows[a], t.rows[a]) && SamePlace(u.rows[b], t.rows[b]);
    }
  }

  /** Competing for a slot depends on places only, so exclusion carries over to any of the
      grants still held. */
  lemma ExclusionCarriesOver(t: Table, u: Table, grants: set<InstanceId>, kept: set<InstanceId>)
    requires SamePlaces(t, u) && GrantsExclude(t, grants) && kept <= grants
    requires forall g | g in kept :: HoldsLoadGrant(u.rows[g])
    ensures GrantsExclude(u, kept)
  {
    forall a, b | a in kept && b in kept && SameSlot(u.rows[a], u.rows[b]) ensures a == b {
      assert SamePlace(u.rows[a], t.rows[a]) && SamePlace(u.rows[b], t.rows[b]);
      assert SameSlot(t.rows[a], t.rows[b]);
    }
  }

  lemma ExclusionExtends(u: Table, kept: set<InstanceId>, id: InstanceId)
    requires GrantsExclude(u, kept) && id in u.rows && HoldsLoadGrant(u.rows[id])
    requires forall g | g in kept && g != id :: !SameSlot(u.rows[id], u.rows[g])
    ensures GrantsExclude(u, kept + {id})
  {
    forall a, b | a in kept + {id} && b in kept + {id} && SameSlot(u.rows[a], u.rows[b]) ensures a == b {
      assert SameSlot(u.rows[b], u.rows[a]);
    }
  }

  lemma RowKept(i: Instance, j: Instance, owner: InstanceId, now: Time)
    requires Sound(i) && (j == i || j == Released(i, owner, now))
    ensures Sound(j) && SamePlace(j, i)
  {
    ReleaseKeepsSound(i, owner, now);
  }

  lemma ReconcileKeepsRow(t: Table, id: InstanceId, trigger: Trigger, env: Env, o: InstanceId)
    requires Wellformed(t) && id in t.rows && o in t.rows && Sound(t.rows[o])
    ensures var u := ReconcileOne(t, id, trigger, env);
            o in u.rows && Sound(u.rows[o]) && SamePlace(u.rows[o], t.rows[o])
  {
    ReconcileFrame(t, id, trigger, env);
    if o == id {
      ReconcileKeepsSound(t.rows[id], Listing(t), trigger, env);
    } else {
      RowKept(t.rows[o], ReconcileOne(t, id, trigger, env).rows[o], id, env.now);
    }
  }

  lemma ReconcileKeepsRows(t: Table, id: InstanceId, trigger: Trigger, env: Env)
    requires Wellformed(t) && AllSound(t) && id in t.rows
    ensures AllSound(ReconcileOne(t, id, trigger, env)) && SamePlaces(t, ReconcileOne(t, id, trigger, env))
  {
    var u := ReconcileOne(t, id, trigger, env);
    ReconcileKeepsWellformed(t, id, trigger, env);
    forall o | o in t.rows
      ensures Sound(u.rows[o]) && SamePlace(u.rows[o], t.rows[o])
    {
      ReconcileKeepsRow(t, id, trigger, env, o);
    }
  }

  lemma UnreleasedRowStays(t: Table, id: InstanceId, updated: Instance, now: Time, g: InstanceId)
    requires updated.id == id && g in t.rows && g != id && !Releases(TargetsOf(updated), id, g)
    ensures var u := Put(ReleaseAll(t, id, TargetsOf(updated), now), updated);
            g in u.rows && u.rows[g] == t.rows[g]
  {
  }

  lemma GrantKept(c: Control, id: InstanceId, updated: Instance, g: InstanceId)
    requires id in c.table.rows && g in GrantsAfter(c, id, updated) && g != id
    ensures g in c.grants && !Releases(TargetsOf(updated), id, g)
  {
  }

  lemma ReconciledKeepsId(i: Instance, others: seq<Instance>, trigger: Trigger, env: Env)
    ensures Reconciled(i, others, trigger, env).id == i.id
  {
  }

  lemma ReconcilePuts(t: Table, id: InstanceId, trigger: Trigger, env: Env, updated: Instance)
    requires Wellformed(t) && id in t.rows && updated == Reconciled(t.rows[id], Listing(t), trigger, env)
    ensures ReconcileOne(t, id, trigger, env) == Put(ReleaseAll(t, id, TargetsOf(updated), env.now), updated)
    ensures updated.id == id
  {
    ReconciledKeepsId(t.rows[id], Listing(t), trigger, env);
  }

  /** Another instance's grant that survives a reconcile was held before and is untouched. */
  lemma OthersGrantSurvives(c: Control, id: InstanceId, trigger: Trigger, env: Env, g: InstanceId)
    requires Wellformed(c.table) && id in c.table.rows && g in c.table.rows && g != id
    requires g in GrantsAfter(c, id, Reconciled(c.table.rows[id], Listing(c.table), trigger, env))
    ensures var u := ReconcileOne(c.table, id, trigger, env);
            g in c.grants && g in u.rows && u.rows[g] == c.table.rows[g]
  {
    var updated := Reconciled(c.table.rows[id], Listing(c.table), trigger, env);
    GrantKept(c, id, updated, g);
    ReconcilePuts(c.table, id, trigger, env, updated);
    UnreleasedRowStays(c.table, id, updated, env.now, g);
  }

  /** A fresh idle grant shares its slot with no grant that is held. */
  lemma FreshGrantIsAlone(t: Table, id: InstanceId, trigger: Trigger, env: Env, g: InstanceId)
    requires Wellformed(t) && id in t.rows && g in t.rows && g != id && HoldsLoadGrant(t.rows[g])
    requires HoldsLoadGrant(Reconciled(t.rows[id], Listing(t), trigger, env)) && !t.rows[id].observed.Running?
    ensures !SameSlot(t.rows[id], t.rows[g])
  {
    if SameSlot(t.rows[id], t.rows[g]) {
      assert t.rows[g] in Listing(t);
      IdleGrantMeansFreeSlot(t.rows[id], Listing(t), trigger, env, t.rows[g]);
    }
  }

  /** What must hold of another grant that is still recorded after row `id` is rewritten. */
  ghost predicate Survives(t: Table, u: Table, id: InstanceId, grants: set<InstanceId>, after: set<InstanceId>,
                           g: InstanceId)
    requires id in t.rows
  {
    && g in grants && g in t.rows && g in u.rows && u.rows[g] == t.rows[g]
    && (id in after ==> !SameSlot(t.rows[id], t.rows[g]))
  }

  /** Exclusion after one row is rewritten and some grants are withdrawn. */
  lemma ExclusionAfterRewrite(t: Table, u: Table, id: InstanceId, grants: set<InstanceId>, after: set<InstanceId>)
    requires SamePlaces(t, u) && id in t.rows && GrantsExclude(t, grants - {id})
    requires forall g | g in after && g != id :: Survives(t, u, id, grants, after, g)
    requires id in after ==> HoldsLoadGrant(u.rows[id])
    ensures GrantsExclude(u, after)
  {
    var kept := after - {id};
    forall g | g in kept
      ensures g in grants && u.rows[g] == t.rows[g] && (id in after ==> !SameSlot(t.rows[id], t.rows[g]))
    {
      assert Survives(t, u, id, grants, after, g);
    }
    ExclusionCarriesOver(t, u, grants - {id}, kept);
    if id in after {
      forall g | g in kept ensures !SameSlot(u.rows[id], u.rows[g]) {
        assert SamePlace(u.rows[id], t.rows[id]) && SamePlace(u.rows[g], t.rows[g]);
      }
      ExclusionExtends(u, kept, id);
      assert after == kept + {id};
    } else {
      assert after == kept;
    }
  }

  lemma OwnGrantIsFresh(c: Control, id: InstanceId, updated: Instance)
    requires id in c.table.rows && id in GrantsAfter(c, id, updated)
    ensures HoldsLoadGrant(updated) && !c.table.rows[id].observed.Running?
  {
  }

  lemma OthersGrantIsSafe(c: Control, id: InstanceId, trigger: Trigger, env: Env, updated: Instance, g: InstanceId)
    requires Wellformed(c.table) && id in c.table.rows && GrantsExclude(c.table, c.grants - {id})
    requires updated == Reconciled(c.table.rows[id], Listing(c.table), trigger, env)
    requires g in GrantsAfter(c, id, updated) && g != id
    ensures Survives(c.table, ReconcileOne(c.table, id, trigger, env), id, c.grants, GrantsAfter(c, id, updated), g)
  {
    GrantKept(c, id, updated, g);
    assert g in c.grants - {id};
    OthersGrantSurvives(c, id, trigger, env, g);
    if id in GrantsAfter(c, id, updated) {
      OwnGrantIsFresh(c, id, updated);
      FreshGrantIsAlone(c.table, id, trigger, env, g);
    }
  }

  /** The grants a reconcile leaves exclude each other, even if the reconciled instance itself
      clashed before: its own grant is decided anew. */
  lemma ReconcileExcludes(c: Control, id: InstanceId, trigger: Trigger, env: Env)
    requires Wellformed(c.table) && AllSound(c.table) && id in c.table.rows
    requires GrantsExclude(c.table, c.grants - {id})
    ensures var updated := Reconciled(c.table.rows[id], Listing(c.table), trigger, env);
            GrantsExclude(ReconcileOne(c.table, id, trigger, env), GrantsAfter(c, id, updated))
  {
    var updated := Reconciled(c.table.rows[id], Listing(c.table), trigger, env);
    ReconcileKeepsRows(c.table, id, trigger, env);
    assert id in ReconcileOne(c.table, id, trigger, env).rows
           && ReconcileOne(c.table, id, trigger, env).rows[id] == updated by {
      ReconcileFrame(c.table, id, trigger, env);
    }
    RewriteExcludes(c, id, trigger, env, ReconcileOne(c.table, id, trigger, env), updated);
  }

  lemma RewriteExcludes(c: Control, id: InstanceId, trigger: Trigger, env: Env, u: Table, updated: Instance)
    requires Wellformed(c.table) && id in c.table.rows && GrantsExclude(c.table, c.grants - {id})
    requires u == ReconcileOne(c.table, id, trigger, env) && SamePlaces(c.table, u)
    requires updated == Reconciled(c.table.rows[id], Listing(c.table), trigger, env) && u.rows[id] == updated
    ensures GrantsExclude(u, GrantsAfter(c, id, updated))
  {
    var after := GrantsAfter(c, id, updated);
    if id in after {
      OwnGrantIsFresh(c, id, updated);
    }
    forall g | g in after && g != id ensures Survives(c.table, u, id, c.grants, after, g) {
      OthersGrantIsSafe(c, id, trigger, env, updated, g);
    }
    ExclusionAfterRewrite(c.table, u, id, c.grants, after);
  }

  lemma ReconcileKeepsBase(c: Control, id: InstanceId, trigger: Trigger, env: Env)
    requires Base(c)
    ensures Base(ReconcileControl(c, id, trigger, env))
  {
    if id in c.table.rows {
      ReconcileKeepsWellformed(c.table, id, trigger, env);
      ReconcileKeepsRows(c.table, id, trigger, env);
      SamePlacesKeepUniqueModels(c.table, ReconcileOne(c.table, id, trigger, env));
    }
  }

  lemma ReconcileKeepsInvariant(c: Control, id: InstanceId, trigger: Trigger, env: Env)
    requires Base(c)
    requires GrantsExclude(c.table, c.grants - {id}) && (id !in c.table.rows ==> id !in c.grants)
    ensures Invariant(ReconcileControl(c, id, trigger, env))
  {
    ReconcileKeepsBase(c, id, trigger, env);
    if id in c.table.rows {
      ReconcileExcludes(c, id, trigger, env);
    } else {
      assert c.grants - {id} == c.grants;
    }
  }

  lemma {:induction false} SweepKeepsBase(c: Control, ids: seq<InstanceId>, trigger: Trigger, env: Env)
    requires Base(c)
    ensures Base(SweepControl(c, ids, trigger, env))
    decreases |ids|
  {
    if ids != [] {
      ReconcileKeepsBase(c, ids[0], trigger, env);
      SweepKeepsBase(ReconcileControl(c, ids[0], trigger, env), ids[1..], trigger, env);
    }
  }

  lemma {:induction false} SweepKeepsInvariant(c: Control, ids: seq<InstanceId>, trigger: Trigger, env: Env)
    requires Invariant(c)
    ensures Invariant(SweepControl(c, ids, trigger, env))
    decreases |ids|
  {
    if ids != [] {
      ReconcileKeepsInvariant(c, ids[0], trigger, env);
      SweepKeepsInvariant(ReconcileControl(c, ids[0], trigger, env), ids[1..], trigger, env);
    }
  }

  lemma ReleaseAllKeepsRows(t: Table, owner: InstanceId, targets: seq<InstanceId>, now: Time)
    requires Wellformed(t) && AllSound(t)
    ensures var u := ReleaseAll(t, owner, targets, now);
            Wellformed(u) && AllSound(u) && SamePlaces(t, u)
  {
    ReleaseKeepsWellformed(t, owner, targets, now);
    var u := ReleaseAll(t, owner, targets, now);
    forall o | o in t.rows ensures Sound(u.rows[o]) && SamePlace(u.rows[o], t.rows[o]) {
      RowKept(t.rows[o], u.rows[o], owner, now);
    }
  }

  /** Withdrawing the grants of released rows keeps exclusion. */
  lemma ReleaseAllExcludes(c: Control, owner: InstanceId, targets: seq<InstanceId>, now: Time)
    requires Invariant(c)
    ensures GrantsExclude(ReleaseAll(c.table, owner, targets, now),
                          set g | g in c.grants && !Releases(targets, owner, g))
  {
    ReleaseAllKeepsRows(c.table, owner, targets, now);
    ExclusionCarriesOver(c.table, ReleaseAll(c.table, owner, targets, now), c.grants,
                         set g | g in c.grants && !Releases(targets, owner, g));
  }

  lemma QueryKeepsBase(c: Control, id: InstanceId, env: Env)
    requires Base(c)
    ensures Base(QueryControl(c, id, env))
  {
    if id in c.table.rows {
      var targets := TargetsOf(Reconciled(c.table.rows[id], Listing(c.table), SummaryQuery, env));
      ReleaseAllKeepsRows(c.table, id, targets, env.now);
      SamePlacesKeepUniqueModels(c.table, ReleaseAll(c.table, id, targets, env.now));
    }
  }

  lemma QueryKeepsInvariant(c: Control, id: InstanceId, env: Env)
    requires Invariant(c)
    ensures Invariant(QueryControl(c, id, env))
  {
    QueryKeepsBase(c, id, env);
    if id in c.table.rows {
      var targets := TargetsOf(Reconciled(c.table.rows[id], Listing(c.table), SummaryQuery, env));
      ReleaseAllExcludes(c, id, targets, env.now);
    }
  }

  /** The row a report leaves before its reconcile. */
  function SeenRow(t: Table, id: InstanceId, r: Report, env: Env): Instance
    requires id in t.rows
  {
    Stored(Observed(t.rows[id], r, env.now))
  }

  lemma ReportWritesRow(c: Control, id: InstanceId, r: Report, env: Env)
    requires Base(c) && ProperReport(r) && id in c.table.rows
    ensures var seen := SeenRow(c.table, id, r, env);
            var d := c.(table := Put(c.table, seen));
            && seen.id == id && seen.modelId == c.table.rows[id].modelId && d.table.rows == c.table.rows[id := seen]
            && seen.precheck.gating == (if r.finding.RuntimePrecheck? then GatingPrecheck(r)
                                        else c.table.rows[id].precheck.gating)
            && (Guaranteed(c.table.rows[id]) && GuaranteedReport(r) ==> Guaranteed(seen))
            && Base(d)
  {
    var seen := SeenRow(c.table, id, r, env);
    ReportKeepsSound(c.table.rows[id], r, env.now);
    PutKeepsWellformed(c.table, seen);
    PutKeepsSound(c.table, seen);
    PutKeepsModelsUnique(c.table, seen);
  }

  lemma ReportIsReconcile(c: Control, id: InstanceId, r: Report, env: Env)
    requires Base(c) && ProperReport(r) && id in c.table.rows
    ensures var d := c.(table := Put(c.table, SeenRow(c.table, id, r, env)));
            Base(d) && ReportControl(c, id, r, env) == ReconcileControl(d, id, AgentTaskReport, env)
  {
    ReportWritesRow(c, id, r, env);
  }

  lemma ReportKeepsBase(c: Control, id: InstanceId, r: Report, env: Env)
    requires Base(c) && ProperReport(r)
    ensures Base(ReportControl(c, id, r, env))
  {
    if id in c.table.rows {
      ReportIsReconcile(c, id, r, env);
      ReconcileKeepsBase(c.(table := Put(c.table, SeenRow(c.table, id, r, env))), id, AgentTaskReport, env);
    }
  }

  lemma ReportKeepsInvariant(c: Control, id: InstanceId, r: Report, env: Env)
    requires Invariant(c) && ProperReport(r)
    ensures Invariant(ReportControl(c, id, r, env))
  {
    if id in c.table.rows {
      ReportWritesRow(c, id, r, env);
      ReportIsReconcile(c, id, r, env);
      var d := c.(table := Put(c.table, SeenRow(c.table, id, r, env)));
      assert GrantsExclude(d.table, c.grants - {id});
      ReconcileKeepsInvariant(d, id, AgentTaskReport, env);
    }
  }

  /** A sync that leaves every recorded grant in a slot of its own. */
  ghost predicate SyncStays(c: Control, m: ModelView)
    requires Wellformed(c.table)
  {
    var found := FindByModel(Listing(c.table), m.id);
    found.Some? && found.value in c.grants ==>
      forall g | g in c.grants && g != found.value && g in c.table.rows ::
        !SameSlot(SyncedInstance(c.table.rows[found.value], m), c.table.rows[g])
  }

  /** The row a sync writes. */
  function SyncRow(t: Table, m: ModelView): Instance
    requires Wellformed(t)
  {
    var found := FindByModel(Listing(t), m.id);
    if found.Some? then SyncedInstance(t.rows[found.value], m)
    else Stored(NewInstance(InstanceIdFor(m.id), m))
  }

  lemma SyncWrites(t: Table, m: ModelView)
    requires Wellformed(t) && AllSound(t)
    ensures var r := SyncRow(t, m);
            && Sync(t, m) == Put(t, r) && Sound(r) && r.modelId == m.id && r.id != ""
            && (UniqueModels(t) ==> forall o | o in t.rows && t.rows[o].modelId == m.id :: o == r.id)
            && (FindByModel(Listing(t), m.id).Some?
                ==> r.id in t.rows && t.rows[r.id].modelId == m.id && r.lastPlan == t.rows[r.id].lastPlan
                    && r.id == FindByModel(Listing(t), m.id).value)
            && (FindByModel(Listing(t), m.id).None? ==> r.id == InstanceIdFor(m.id) && r.lastPlan.plan.None?)
  {
    var found := FindByModel(Listing(t), m.id);
    assert forall o | o in t.rows :: t.rows[o] in Listing(t);
    if found.Some? {
      SyncKeepsSound(t.rows[found.value], m);
    } else {
      NewInstanceIsSound(InstanceIdFor(m.id), m);
    }
  }

  lemma SyncKeepsRows(t: Table, m: ModelView)
    requires Wellformed(t) && AllSound(t) && UniqueModels(t)
    ensures var u := Sync(t, m);
            Wellformed(u) && AllSound(u) && UniqueModels(u)
  {
    SyncWrites(t, m);
    PutKeepsWellformed(t, SyncRow(t, m));
    PutKeepsSound(t, SyncRow(t, m));
    PutKeepsModelsUnique(t, SyncRow(t, m));
  }

  lemma PutKeepsSound(t: Table, row: Instance)
    requires AllSound(t) && Sound(row)
    ensures AllSound(Put(t, row))
  {
  }

  lemma PutKeepsModelsUnique(t: Table, row: Instance)
    requires UniqueModels(t)
    requires forall o | o in t.rows && t.rows[o].modelId == row.modelId :: o == row.id
    ensures UniqueModels(Put(t, row))
  {
  }

  /** A sync may move an instance to another node without deciding its plan anew. It keeps the
      invariant exactly when the move brings no two recorded grants into one slot. */
  lemma SyncKeepsInvariantIff(c: Control, m: ModelView)
    requires Invariant(c)
    ensures Invariant(SyncControl(c, m)) <==> SyncStays(c, m)
  {
    var t := c.table;
    var row := SyncRow(t, m);
    SyncKeepsRows(t, m);
    SyncWrites(t, m);
    if FindByModel(Listing(t), m.id).Some? {
      RowChangeExcludesIff(t, row, c.grants);
    } else {
      RowDropExcludes(t, row, c.grants);
    }
  }

  /** Replacing one row keeps exclusion exactly when its new slot is not taken by a grant. */
  lemma RowChangeExcludesIff(t: Table, row: Instance, grants: set<InstanceId>)
    requires GrantsExclude(t, grants) && row.id in t.rows && row.lastPlan == t.rows[row.id].lastPlan
    ensures GrantsExclude(Put(t, row), grants)
       <==> (row.id in grants ==> forall g | g in grants && g != row.id :: !SameSlot(row, t.rows[g]))
  {
    var u := Put(t, row);
    if row.id in grants ==> forall g | g in grants && g != row.id :: !SameSlot(row, t.rows[g]) {
      forall a, b | a in grants && b in grants && SameSlot(u.rows[a], u.rows[b]) ensures a == b {
        assert SameSlot(u.rows[b], u.rows[a]);
      }
    } else {
      var g :| g in grants && g != row.id && SameSlot(row, t.rows[g]);
      assert SameSlot(u.rows[row.id], u.rows[g]);
    }
  }

  lemma RowDropExcludes(t: Table, row: Instance, grants: set<InstanceId>)
    requires GrantsExclude(t, grants)
    ensures GrantsExclude(Put(t, row), grants - {row.id})
  {
  }

  lemma FoundIsRow(t: Table, m: ModelId)
    requires Wellformed(t)
    ensures var found := FindByModel(Listing(t), m);
            && (found.Some? ==> found.value in t.rows && t.rows[found.value].modelId == m)
            && (found.None? ==> forall id | id in t.rows :: t.rows[id].modelId != m)
  {
    assert forall o | o in t.rows :: t.rows[o] in Listing(t);
  }

  lemma CreateTaskKeepsBase(c: Control, kind: RuntimeTaskType, m: ModelId, env: Env)
    requires Base(c)
    ensures Base(CreateTaskControl(c, kind, m, env))
  {
    var found := FindByModel(Listing(c.table), m);
    if found.Some? {
      ReconcileKeepsBase(c, found.value, TaskTrigger(kind), env);
      AdmittingKeepsBase(ReconcileControl(c, found.value, TaskTrigger(kind), env), found.value, kind, m);
    }
  }

  lemma AdmittingKeepsBase(c: Control, id: InstanceId, kind: RuntimeTaskType, m: ModelId)
    requires Base(c)
    ensures Base(AdmitTask(c, id, kind, m))
  {
  }

  lemma CreateTaskKeepsInvariant(c: Control, kind: RuntimeTaskType, m: ModelId, env: Env)
    requires Invariant(c)
    ensures Invariant(CreateTaskControl(c, kind, m, env))
  {
    var found := FindByModel(Listing(c.table), m);
    FoundIsRow(c.table, m);
    if found.Some? {
      assert GrantsExclude(c.table, c.grants - {found.value});
      ReconcileKeepsInvariant(c, found.value, TaskTrigger(kind), env);
      AdmittingKeepsInvariant(ReconcileControl(c, found.value, TaskTrigger(kind), env), found.value, kind, m);
    }
  }

  lemma AdmittingKeepsInvariant(c: Control, id: InstanceId, kind: RuntimeTaskType, m: ModelId)
    requires Invariant(c)
    ensures Invariant(AdmitTask(c, id, kind, m))
  {
  }

  lemma NamedSyncKeepsBase(c: Control, m: ModelView)
    requires Base(c)
    ensures Base(SyncNamed(c, m))
  {
    if m.id != "" {
      SyncKeepsRows(c.table, m);
    }
  }

  lemma NamedSyncKeepsInvariant(c: Control, m: ModelView)
    requires Invariant(c) && (m.id != "" ==> SyncStays(c, m))
    ensures Invariant(SyncNamed(c, m))
  {
    if m.id != "" {
      SyncKeepsInvariantIff(c, m);
    }
  }

  lemma NamedTaskKeepsBase(c: Control, kind: RuntimeTaskType, m: ModelId, env: Env)
    requires Base(c)
    ensures Base(CreateNamedTask(c, kind, m, env))
  {
    if m != "" {
      CreateTaskKeepsBase(c, kind, m, env);
    }
  }

  lemma NamedTaskKeepsInvariant(c: Control, kind: RuntimeTaskType, m: ModelId, env: Env)
    requires Invariant(c)
    ensures Invariant(CreateNamedTask(c, kind, m, env))
  {
    if m != "" {
      CreateTaskKeepsInvariant(c, kind, m, env);
    }
  }

  ghost predicate Stays(c: Control, s: Step)
    requires Wellformed(c.table)
  {
    s.SyncStep? && s.model.id != "" ==> SyncStays(c, s.model)
  }

  /** Every step of any kind, a sync to any place included. */
  lemma StepKeepsBase(c: Control, s: Step)
    requires Base(c) && ProperStep(s)
    ensures Base(Apply(c, s))
  {
    match s
    case ReportStep(id, report, env) => ReportKeepsBase(c, id, report, env);
    case ReconcileStep(id, trigger, env) => ReconcileKeepsBase(c, id, trigger, env);
    case SweepStep(trigger, env) => SweepKeepsBase(c, c.table.order, trigger, env);
    case SyncStep(model) => NamedSyncKeepsBase(c, model);
    case QueryStep(id, env) => QueryKeepsBase(c, id, env);
    case CreateTaskStep(kind, m, env) => NamedTaskKeepsBase(c, kind, m, env);
  }

  /** A step keeps the whole invariant unless a sync moves an instance into a granted slot. */
  lemma StepKeepsInvariant(c: Control, s: Step)
    requires Invariant(c) && ProperStep(s) && Stays(c, s)
    ensures Invariant(Apply(c, s))
  {
    match s
    case ReportStep(id, report, env) => ReportKeepsInvariant(c, id, report, env);
    case ReconcileStep(id, trigger, env) =>
      assert c.grants - {id} <= c.grants;
      ReconcileKeepsInvariant(c, id, trigger, env);
    case SweepStep(trigger, env) => SweepKeepsInvariant(c, c.table.order, trigger, env);
    case SyncStep(model) => NamedSyncKeepsInvariant(c, model);
    case QueryStep(id, env) => QueryKeepsInvariant(c, id, env);
    case CreateTaskStep(kind, m, env) => NamedTaskKeepsInvariant(c, kind, m, env);
  }
}
