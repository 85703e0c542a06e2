/** The service object itself: the map of instances it keeps and the methods that update it in
    place, each proved to do what the corresponding step of the table model does. */
module RuntimeObjectService {
  import opened Wrappers
  import opened RuntimeTypes
  import opened Conflict
  import opened Gating
  import opened Decisions
  import opened Reconcile
  import opened InstanceLaws
  import opened InstanceTable
  import opened InstanceOrder
  import opened ReconcileSteps
  import opened ControlRuns

  class Service {
    var instances: map<InstanceId, Instance>
    /** The ids in listing order; listings sort, so nothing stores it. */
    ghost var order: seq<InstanceId>

    ghost function View(): Table
      reads this
    {
      Table(order, instances)
    }

    ghost predicate Valid()
      reads this
    {
      Wellformed(View()) && forall id | id in instances :: Sound(instances[id])
    }

    constructor ()
      ensures Valid() && View() == Table([], map[])
    {
      instances, order := map[], [];
    }

    /** Collects the rows in whatever order the map yields them, then sorts by id. */
    method ListRuntimeInstances() returns (out: seq<Instance>)
      requires Valid()
      ensures out == Listing(View())
    {
      out := [];
      var rest := instances.Keys;
      ghost var ids: seq<InstanceId> := [];
      while rest != {}
        invariant rest <= instances.Keys && Collected(out, ids, instances, rest)
        decreases |rest|
      {
        var id :| id in rest;
        SettledIsStored(instances[id]);
        CollectOneMore(out, ids, instances, rest, id);
        out := InsertRow(out, Hydrate(instances[id]));
        ids := Insert(ids, id);
        rest := rest - {id};
      }
      CollectedAll(View(), out, ids);
    }

    method GetRuntimeInstance(id: InstanceId) returns (item: Option<Instance>)
      requires Valid()
      ensures item == if id in instances then Some(instances[id]) else None
    {
      if id == "" || id !in instances {
        item := None;
      } else {
        SettledIsStored(instances[id]);
        item := Some(Hydrate(instances[id]));
      }
    }

    method GetRuntimeInstanceByModelID(m: ModelId) returns (item: Option<Instance>)
      requires Valid()
      ensures var found := FindByModel(Listing(View()), m);
              item == if m != "" && found.Some? then Some(instances[found.value]) else None
    {
      if m == "" {
        return None;
      }
      var items := ListRuntimeInstances();
      item := None;
      for k := 0 to |items|
        invariant FindByModel(items, m) == FindByModel(items[k..], m)
      {
        if items[k].modelId == m {
          return Some(items[k]);
        }
      }
    }

    /** Saving fills the summaries in, loading the flat fields. */
    method UpsertRuntimeInstance(item: Instance)
      requires Valid() && item.id != "" && Sound(Stored(item))
      modifies this
      ensures Valid() && View() == Put(old(View()), Stored(item))
    {
      PutKeepsWellformed(View(), Stored(item));
      var persisted := Persist(item);
      var hydrated := Hydrate(persisted);
      order := Put(View(), hydrated).order;
      instances := instances[item.id := hydrated];
    }

    /** One target's unload plan; an unknown target is skipped. */
    method ReleaseTarget(owner: InstanceId, id: InstanceId, now: Time)
      requires Valid()
      modifies this
      ensures Valid()
      ensures View() == if id in old(instances) then Put(old(View()), Released(old(instances)[id], owner, now))
                        else old(View())
    {
      var found := GetRuntimeInstance(id);
      if found.Some? {
        var plan := ReleasePlan(owner, now);
        var target := found.value.(lastPlan := PlanFields(plan.action, plan.status, plan.message, now, Some(plan)));
        ReleaseKeepsSound(found.value, owner, now);
        SettledIsStored(target);
        UpsertRuntimeInstance(target);
      }
    }

    /** Hands every target but the owner an unload plan. */
    method ApplyReleasePlanToTargets(owner: InstanceId, targets: seq<InstanceId>, now: Time)
      requires Valid()
      modifies this
      ensures Valid() && View() == ReleaseAll(old(View()), owner, targets, now)
    {
      ghost var start := View();
      ReleaseNobody(start, owner, now);
      for k := 0 to |targets|
        invariant Valid() && Wellformed(start) && View() == ReleaseAll(start, owner, targets[..k], now)
      {
        ReleaseOneMore(start, owner, targets, k, now);
        if targets[k] != owner {
          ReleaseTarget(owner, targets[k], now);
        }
      }
      assert targets[..|targets|] == targets;
    }

    /** Judges a copy of an instance against the listing and sends its release plans. The copy
        itself is not stored. */
    method ReconcileRuntimeInstanceInternal(copy: Instance, trigger: Trigger, env: Env) returns (item: Instance)
      requires Valid() && copy.id != "" && Sound(copy)
      modifies this
      ensures Valid() && item == Reconciled(copy, Listing(old(View())), trigger, env)
      ensures View() == ReleaseAll(old(View()), copy.id, TargetsOf(item), env.now)
    {
      SettledIsStored(copy);
      item := Hydrate(copy);
      var all := ListRuntimeInstances();
      item := ReconcileItem(item, all, trigger, env);
      ReleaseNobody(View(), copy.id, env.now);
      var targets := item.lastPlan.plan.value.releaseTargets;
      if targets != [] {
        ApplyReleasePlanToTargets(item.id, targets, env.now);
      }
    }

    method ReconcileAndStore(copy: Instance, trigger: Trigger, env: Env) returns (item: Instance)
      requires Valid() && copy.id in instances && Sound(copy) && SameButPlan(copy, instances[copy.id])
      modifies this
      ensures Valid() && View() == ReconcileOne(old(View()), copy.id, trigger, env)
      ensures copy.id in instances && item == instances[copy.id]
    {
      ghost var t := View();
      PlanDoesNotMatter(copy, t.rows[copy.id], Listing(t), trigger, env);
      item := ReconcileRuntimeInstanceInternal(copy, trigger, env);
      ReconcileKeepsSound(copy, Listing(t), trigger, env);
      SettledIsStored(item);
      UpsertRuntimeInstance(item);
    }

    /** The summary's answer is whether the target action is allowed. */
    method ReconcileRuntimeInstance(id: InstanceId, trigger: Trigger, env: Env) returns (allowed: Option<bool>)
      requires Valid()
      modifies this
      ensures Valid() && View() == ReconcileOne(old(View()), id, trigger, env)
      ensures allowed == if id in instances then Some(instances[id].gating.allowed) else None
    {
      var found := GetRuntimeInstance(id);
      if found.None? {
        allowed := None;
      } else {
        var item := ReconcileAndStore(found.value, trigger, env);
        allowed := Some(item.gating.allowed);
      }
    }

    /** Computes a summary without storing the instance, but not without side effects. */
    method GetRuntimeInstanceReconcileSummary(id: InstanceId, env: Env) returns (allowed: Option<bool>)
      requires Valid()
      modifies this
      ensures Valid() && View() == QuerySummary(old(View()), id, env)
      ensures allowed == if id in old(instances)
                         then Some(Reconciled(old(instances)[id], Listing(old(View())), SummaryQuery, env).gating.allowed)
                         else None
    {
      var found := GetRuntimeInstance(id);
      if found.None? {
        allowed := None;
      } else {
        var item := ReconcileRuntimeInstanceInternal(found.value, SummaryQuery, env);
        allowed := Some(item.gating.allowed);
      }
    }

    method SweepItem(ghost start: Table, items: seq<Instance>, k: nat, trigger: Trigger, env: Env)
      requires Valid() && Wellformed(start) && k < |items| == |start.order|
      requires View() == Sweep(start, start.order[..k], trigger, env) && CopiesCurrent(items, k, View())
      modifies this
      ensures Valid() && View() == Sweep(start, start.order[..k + 1], trigger, env) && CopiesCurrent(items, k + 1, View())
    {
      SweepOneMore(start, start.order, k, trigger, env);
      CopiesStayCurrent(View(), items, k, trigger, env);
      var _ := ReconcileAndStore(items[k], trigger, env);
    }

    /** The loop walks copies taken before it started while every reconcile reads the current
        listing. Rows can differ from their copies only in a release plan received meanwhile,
        which the reconcile overwrites anyway, so the sweep is a sequence of single reconciles. */
    method RunInstanceReconcileOnce(trigger: Trigger, env: Env)
      requires Valid()
      modifies this
      ensures Valid() && View() == Sweep(old(View()), old(View()).order, trigger, env)
    {
      ghost var start := View();
      var items := ListRuntimeInstances();
      CopiesStartCurrent(start, items);
      for k := 0 to |items|
        invariant Valid() && Wellformed(start) && View() == Sweep(start, start.order[..k], trigger, env)
        invariant CopiesCurrent(items, k, View())
      {
        SweepItem(start, items, k, trigger, env);
      }
      assert start.order[..|items|] == start.order;
    }

    method ApplyAgentTaskObservation(id: InstanceId, r: Report, env: Env)
      requires Valid() && ProperReport(r)
      modifies this
      ensures Valid() && View() == Observe(old(View()), id, r, env)
    {
      var found := GetRuntimeInstance(id);
      if found.Some? {
        var item := ObserveReport(found.value, r, env.now);
        ReportKeepsSound(found.value, r, env.now);
        UpsertRuntimeInstance(item);
        var _ := ReconcileRuntimeInstance(id, AgentTaskReport, env);
      }
    }

    method SyncModelRuntimeObjects(m: ModelView)
      requires Valid()
      modifies this
      ensures Valid() && View() == if m.id == "" then old(View()) else Sync(old(View()), m)
    {
      if m.id == "" {
        return;
      }
      var existing := GetRuntimeInstanceByModelID(m.id);
      if existing.Some? {
        var item := MergeExisting(existing.value, m);
        SyncKeepsSound(existing.value, m);
        UpsertRuntimeInstance(item);
      } else {
        NewInstanceIsSound(InstanceIdFor(m.id), m);
        UpsertRuntimeInstance(NewInstance(InstanceIdFor(m.id), m));
      }
    }
  }

  lemma ReleaseNobody(t: Table, owner: InstanceId, now: Time)
    ensures ReleaseAll(t, owner, [], now) == t
  {
  }

  /** Releasing is the same however often a target is named. */
  lemma ReleaseOneMore(t: Table, owner: InstanceId, targets: seq<InstanceId>, k: nat, now: Time)
    requires Wellformed(t) && k < |targets|
    ensures var before := ReleaseAll(t, owner, targets[..k], now);
            ReleaseAll(t, owner, targets[..k + 1], now)
            == if targets[k] == owner || targets[k] !in t.rows then before
               else Put(before, Released(before.rows[targets[k]], owner, now))
  {
    var id := targets[k];
    var before, after := ReleaseAll(t, owner, targets[..k], now), ReleaseAll(t, owner, targets[..k + 1], now);
    assert targets[..k + 1] == targets[..k] + [id];
    if id != owner && id in t.rows {
      assert after.rows == Put(before, Released(before.rows[id], owner, now)).rows;
    } else {
      assert after.rows == before.rows;
    }
  }

  // ---- Copies taken before a sweep ----

  predicate SameButPlan(a: Instance, b: Instance) {
    a == b.(lastPlan := a.lastPlan)
  }

  lemma PeerIgnoresPlan(a: Instance, plan: PlanFields, other: Instance, wantsLoad: bool)
    ensures PeerReasons(a.(lastPlan := plan), other, wantsLoad) == PeerReasons(a, other, wantsLoad)
  {
  }

  lemma {:induction false} PeersIgnorePlan(a: Instance, plan: PlanFields, others: seq<Instance>, wantsLoad: bool)
    ensures AllPeerReasons(a.(lastPlan := plan), others, wantsLoad) == AllPeerReasons(a, others, wantsLoad)
  {
    if others != [] {
      PeersIgnorePlan(a, plan, others[..|others| - 1], wantsLoad);
      PeerIgnoresPlan(a, plan, others[|others| - 1], wantsLoad);
    }
  }

  lemma {:induction false} PolicyIgnoresPlan(a: Instance, plan: PlanFields, codes: seq<Code>)
    ensures PrecheckPolicyReasons(a.(lastPlan := plan), codes) == PrecheckPolicyReasons(a, codes)
  {
    if codes != [] {
      PolicyIgnoresPlan(a, plan, codes[..|codes| - 1]);
    }
  }

  lemma ConflictsIgnorePlan(a: Instance, plan: PlanFields, others: seq<Instance>, target: Action, signals: Signals)
    ensures ConflictReasons(a.(lastPlan := plan), others, target, signals)
         == ConflictReasons(a, others, target, signals)
  {
    PeersIgnorePlan(a, plan, others, WantsLoad(a, target));
    PolicyIgnoresPlan(a, plan, a.precheck.reasons);
  }

  lemma PreparationIgnoresPlan(a: Instance, plan: PlanFields, env: Env)
    ensures Prepared(a.(lastPlan := plan), env) == Prepared(a, env).(lastPlan := plan)
    ensures Prechecked(a.(lastPlan := plan), env) == Prechecked(a, env).(lastPlan := plan)
    ensures PrecheckSummaryOf(Prepared(a.(lastPlan := plan), env), env.now) == PrecheckSummaryOf(Prepared(a, env), env.now)
  {
  }

  lemma TargetIgnoresPlan(a: Instance, plan: PlanFields, trigger: Trigger, env: Env)
    ensures var p, q := Prepared(a.(lastPlan := plan), env), Prepared(a, env);
            && TargetAction(p.desired, p.observed, trigger) == TargetAction(q.desired, q.observed, trigger)
            && SignalsOf(p, env) == SignalsOf(q, env)
  {
  }

  lemma ConflictSummaryIgnoresPlan(
    a: Instance, plan: PlanFields, others: seq<Instance>, target: Action, signals: Signals, now: Time)
    ensures ConflictSummaryOf(a.(lastPlan := plan), others, target, signals, now)
         == ConflictSummaryOf(a, others, target, signals, now)
  {
    ConflictsIgnorePlan(a, plan, others, target, signals);
  }

  lemma JudgementIgnoresPlan(a: Instance, plan: PlanFields, others: seq<Instance>, trigger: Trigger, env: Env)
    ensures Judge(a.(lastPlan := plan), others, trigger, env) == Judge(a, others, trigger, env)
  {
    var p := Prepared(a, env);
    var target := TargetAction(p.desired, p.observed, trigger);
    PreparationIgnoresPlan(a, plan, env);
    TargetIgnoresPlan(a, plan, trigger, env);
    ConflictSummaryIgnoresPlan(Prechecked(a, env), plan, others, target, SignalsOf(p, env), env.now);
  }

  /** A reconcile does not look at its instance's own last plan. */
  lemma PlanDoesNotMatter(a: Instance, b: Instance, others: seq<Instance>, trigger: Trigger, env: Env)
    requires SameButPlan(a, b)
    ensures Reconciled(a, others, trigger, env) == Reconciled(b, others, trigger, env)
  {
    JudgementIgnoresPlan(b, a.lastPlan, others, trigger, env);
    PreparationIgnoresPlan(b, a.lastPlan, env);
    DecisionIgnoresPlan(b, a.lastPlan, Judge(b, others, trigger, env), trigger, env);
  }

  lemma DecisionIgnoresPlan(a: Instance, plan: PlanFields, v: Verdict, trigger: Trigger, env: Env)
    ensures Decide(a.(lastPlan := plan), v, trigger, env) == Decide(a, v, trigger, env)
  {
    PreparationIgnoresPlan(a, plan, env);
  }

  lemma {:induction false} SweepSnoc(t: Table, ids: seq<InstanceId>, last: InstanceId, trigger: Trigger, env: Env)
    requires Wellformed(t)
    ensures Wellformed(Sweep(t, ids, trigger, env)) && Sweep(t, ids, trigger, env).order == t.order
    ensures Sweep(t, ids + [last], trigger, env) == ReconcileOne(Sweep(t, ids, trigger, env), last, trigger, env)
    decreases |ids|
  {
    if ids == [] {
      assert [last][1..] == [];
      ReconcileKeepsWellformed(t, last, trigger, env);
      assert ([] + [last]) == [last];
    } else {
      ReconcileKeepsWellformed(t, ids[0], trigger, env);
      SweepSnoc(ReconcileOne(t, ids[0], trigger, env), ids[1..], last, trigger, env);
      assert (ids + [last])[1..] == ids[1..] + [last];
    }
  }

  lemma SweepOneMore(t: Table, order: seq<InstanceId>, k: nat, trigger: Trigger, env: Env)
    requires Wellformed(t) && k < |order|
    ensures Wellformed(Sweep(t, order[..k], trigger, env)) && Sweep(t, order[..k], trigger, env).order == t.order
    ensures Sweep(t, order[..k + 1], trigger, env)
         == ReconcileOne(Sweep(t, order[..k], trigger, env), order[k], trigger, env)
  {
    SweepSnoc(t, order[..k], order[k], trigger, env);
    assert order[..k + 1] == order[..k] + [order[k]];
  }

  /** From position k on, the copies differ from the current rows in their plans at most. */
  ghost predicate CopiesCurrent(items: seq<Instance>, k: nat, t: Table) {
    && ProperListing(items) && |items| == |t.order| && (forall j | 0 <= j < |items| :: items[j].id == t.order[j])
    && forall j | k <= j < |items| ::
         items[j].id in t.rows && Sound(items[j]) && SameButPlan(items[j], t.rows[items[j].id])
  }

  lemma CopiesStartCurrent(t: Table, items: seq<Instance>)
    requires Wellformed(t) && items == Listing(t) && forall id | id in t.rows :: Sound(t.rows[id])
    ensures CopiesCurrent(items, 0, t)
  {
  }

  lemma CopiesStayCurrent(t: Table, items: seq<Instance>, k: nat, trigger: Trigger, env: Env)
    requires Wellformed(t) && k < |items| && CopiesCurrent(items, k, t)
    ensures CopiesCurrent(items, k + 1, ReconcileOne(t, items[k].id, trigger, env))
  {
    var u := ReconcileOne(t, items[k].id, trigger, env);
    ReconcileKeepsWellformed(t, items[k].id, trigger, env);
    forall j | k < j < |items|
      ensures items[j].id in u.rows && SameButPlan(items[j], u.rows[items[j].id])
    {
      LaterCopyStaysCurrent(t, items[k].id, items[j], trigger, env);
    }
  }

  lemma LaterCopyStaysCurrent(t: Table, id: InstanceId, copy: Instance, trigger: Trigger, env: Env)
    requires Wellformed(t) && id in t.rows && copy.id in t.rows && copy.id != id
    requires SameButPlan(copy, t.rows[copy.id])
    ensures var u := ReconcileOne(t, id, trigger, env);
            copy.id in u.rows && SameButPlan(copy, u.rows[copy.id])
  {
    ReconcileFrame(t, id, trigger, env);
  }
}
