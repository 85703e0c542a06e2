/** When the controller refuses, exactly, in any state a run of guaranteed reports can reach,
    and the two ways around it that the code leaves open. */
module ControlRefusals {
  import opened Wrappers
  import opened RuntimeTypes
  import opened Conflict
  import opened Gating
  import opened Decisions
  import opened Reconcile
  import opened InstanceLaws
  import opened InstanceTable
  import opened ControlRuns
  import opened ControlInvariant
  import opened ControlTheorems

  ghost predicate AllGuaranteed(t: Table) {
    forall id | id in t.rows :: Guaranteed(t.rows[id])
  }

  predicate GuaranteedStep(s: Step) {
    s.ReportStep? ==> GuaranteedReport(s.report)
  }

  lemma StepKeepsRowGuaranteed(c: Control, s: Step, o: InstanceId)
    requires Base(c) && AllGuaranteed(c.table) && ProperStep(s) && GuaranteedStep(s) && !s.SyncStep?
    requires o in c.table.rows
    ensures var u := Apply(c, s).table; o in u.rows && Guaranteed(u.rows[o])
  {
    match s
    case ReportStep(j, report, env) =>
      if j in c.table.rows {
        ReportMovesGate(c, j, report, env, o);
      }
    case _ => OtherStepKeepsGate(c, s, o);
  }

  lemma SyncKeepsGuarantee(c: Control, m: ModelView)
    requires Base(c) && AllGuaranteed(c.table)
    ensures AllGuaranteed(Sync(c.table, m))
  {
    var u := Sync(c.table, m);
    SyncWrites(c.table, m);
    SyncRowGate(c.table, m);
    forall o | o in u.rows ensures Guaranteed(u.rows[o]) {
      if o in c.table.rows {
        SyncMovesGate(c, m, o);
      }
    }
  }

  lemma StepKeepsGuarantee(c: Control, s: Step)
    requires Base(c) && AllGuaranteed(c.table) && ProperStep(s) && GuaranteedStep(s)
    ensures AllGuaranteed(Apply(c, s).table)
  {
    if s.SyncStep? {
      SyncKeepsGuarantee(c, s.model);
      assert AllGuaranteed(c.table);
    } else {
      ApplyKeepsWellformed(c, s);
      forall o | o in c.table.rows
        ensures var u := Apply(c, s).table; o in u.rows && Guaranteed(u.rows[o])
      {
        StepKeepsRowGuaranteed(c, s, o);
      }
    }
  }

  lemma {:induction false} RunKeepsGuarantee(c: Control, steps: seq<Step>)
    requires Base(c) && AllGuaranteed(c.table)
    requires AllProper(steps) && forall s | s in steps :: GuaranteedStep(s)
    ensures AllGuaranteed(Run(c, steps).table)
    decreases |steps|
  {
    if steps != [] {
      assert steps[0] in steps;
      StepKeepsBase(c, steps[0]);
      StepKeepsGuarantee(c, steps[0]);
      RunKeepsGuarantee(Apply(c, steps[0]), steps[1..]);
    }
  }

  lemma GuaranteedVerdict(i: Instance, others: seq<Instance>, trigger: Trigger, env: Env)
    requires Sound(i) && Guaranteed(i)
    ensures BlockingReasonsGate(Judge(i, others, trigger, env).precheck)
    ensures Judge(i, others, trigger, env).precheck.gating == i.precheck.gating
  {
    PrecheckCarriesOver(i, env);
  }

  /** In every state a run can reach, the next reconcile of any instance refuses its target
      action exactly when that would load it and the last precheck gates or a conflict blocks. */
  lemma RefusalIsExact(steps: seq<Step>, id: InstanceId, trigger: Trigger, env: Env)
    requires AllProper(steps) && forall s | s in steps :: GuaranteedStep(s)
    requires id in Run(START, steps).table.rows
    ensures var t := Run(START, steps).table;
            var i := t.rows[id];
            var r := Reconciled(i, Listing(t), trigger, env);
            var p := Prepared(i, env);
            r.gating.allowed
            <==> !(IsLoadLike(TargetAction(p.desired, p.observed, trigger)) && (i.precheck.gating || r.conflict.blocking))
  {
    RunKeepsBase(START, steps);
    RunKeepsGuarantee(START, steps);
    var t := Run(START, steps).table;
    GuaranteedVerdict(t.rows[id], Listing(t), trigger, env);
    RefusedIff(t.rows[id], Listing(t), trigger, env);
  }

  lemma GrantsAfterIff(c: Control, id: InstanceId, updated: Instance, g: InstanceId)
    requires id in c.table.rows
    ensures id in GrantsAfter(c, id, updated) <==> HoldsLoadGrant(updated) && !c.table.rows[id].observed.Running?
    ensures g != id ==> (g in GrantsAfter(c, id, updated) <==> g in c.grants && !Releases(TargetsOf(updated), id, g))
  {
  }

  /** What a reconcile does to the record of grants: its own is decided anew, the others' stay
      exactly as long as it sends them no release. */
  lemma GrantsRecorded(c: Control, id: InstanceId, trigger: Trigger, env: Env, g: InstanceId)
    requires Wellformed(c.table) && id in c.table.rows && g in c.table.rows
    ensures var u := ReconcileControl(c, id, trigger, env);
            && id in u.table.rows
            && (id in u.grants <==> HoldsLoadGrant(u.table.rows[id]) && !c.table.rows[id].observed.Running?)
            && (g != id ==> (g in u.grants <==> g in c.grants && !SendsRelease(c.table, id, trigger, env, g)))
  {
    ReconcileFrame(c.table, id, trigger, env);
    ReleasesExactly(c.table, id, trigger, env, g);
    GrantsAfterIff(c, id, Reconciled(c.table.rows[id], Listing(c.table), trigger, env), g);
  }

  ghost predicate NoRowOf(t: Table, m: ModelId) {
    forall o | o in t.rows :: t.rows[o].modelId != m
  }

  lemma UnknownModelIsNotGated(c: Control, kind: RuntimeTaskType, m: ModelId, env: Env)
    requires Wellformed(c.table) && NoRowOf(c.table, m)
    ensures CreateTaskControl(c, kind, m, env).tasks == c.tasks + [RuntimeTask(kind, m)]
  {
    FoundIsRow(c.table, m);
  }

  lemma DisplacedModelIsUnknown(t: Table, m: ModelId, id: InstanceId, other: ModelView)
    requires Wellformed(t) && AllSound(t) && UniqueModels(t) && Gated(t, m, id) && Displaces(t, other, id)
    ensures Wellformed(Sync(t, other)) && NoRowOf(Sync(t, other), m)
  {
    SyncWrites(t, other);
    SyncKeepsRows(t, other);
    FoundIsRow(t, other.id);
    PutOverModel(t, SyncRow(t, other), m);
  }

  lemma PutOverModel(t: Table, row: Instance, m: ModelId)
    requires UniqueModels(t) && row.id in t.rows && t.rows[row.id].modelId == m && row.modelId != m
    ensures NoRowOf(Put(t, row), m)
  {
  }

  /** Two model ids may fold to one instance id. Registering the second takes the row of the
      first, gate and all, and a start of the first, gated a moment ago, is stored. */
  lemma CollidingSyncOpensGate(c: Control, m: ModelId, id: InstanceId, other: ModelView, env: Env)
    requires Base(c) && Gated(c.table, m, id) && Displaces(c.table, other, id)
    ensures var d := SyncControl(c, other);
            && Wellformed(d.table)
            && CreateTaskControl(c, RuntimeStart, m, env).tasks == c.tasks
            && CreateTaskControl(d, RuntimeStart, m, env).tasks == c.tasks + [RuntimeTask(RuntimeStart, m)]
  {
    GatedTaskIsRefused(c, RuntimeStart, m, env, id);
    DisplacedModelIsUnknown(c.table, m, id, other);
    UnknownModelIsNotGated(SyncControl(c, other), RuntimeStart, m, env);
  }

  lemma FoldedIdsCollide()
    ensures InstanceIdFor("a/b") == "ri-a-b" == InstanceIdFor("a-b") == InstanceIdFor("A.b")
  {
    FoldThree('a', '/', 'b');
    FoldThree('a', '-', 'b');
    FoldThree('A', '.', 'b');
  }

  lemma FoldThree(x: char, y: char, z: char)
    requires SafeChar(x) != '-' && SafeChar(z) != '-'
    ensures InstanceIdFor([x, y, z]) == "ri-" + [SafeChar(x), SafeChar(y), SafeChar(z)]
  {
    var s := [x, y, z];
    assert seq(|s|, k requires 0 <= k < |s| => SafeChar(s[k])) == [SafeChar(x), SafeChar(y), SafeChar(z)];
  }
}
