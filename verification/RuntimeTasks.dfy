/** Requests for runtime tasks: what the task service stores, given what the runtime object
    service decides. */
module RuntimeTasks {
  import opened Wrappers
  import opened RuntimeTypes
  import opened Reconcile
  import opened InstanceLaws
  import opened InstanceTable
  import opened ControlRuns
  import opened ControlInvariant
  import opened ControlTheorems
  import RuntimeObjectService

  class TaskService {
    const runtime: RuntimeObjectService.Service
    var tasks: seq<RuntimeTask>

    constructor (runtime: RuntimeObjectService.Service)
      ensures this.runtime == runtime && tasks == []
    {
      this.runtime := runtime;
      tasks := [];
    }

    /** Reconciles the model's instance with the trigger of the request and tells whether the
        request may go on. A model without an instance is let through. */
    method PrepareRuntimeTaskPlanContext(kind: RuntimeTaskType, m: ModelId, env: Env) returns (admitted: bool)
      requires runtime.Valid() && m != ""
      modifies runtime
      ensures runtime.Valid()
      ensures var found := FindByModel(Listing(old(runtime.View())), m);
              if found.None? then admitted && runtime.View() == old(runtime.View())
              else
                && found.value in old(runtime.instances) && found.value in runtime.instances
                && runtime.View() == ReconcileOne(old(runtime.View()), found.value, TaskTrigger(kind), env)
                && admitted == (StartsRuntime(kind) ==> runtime.instances[found.value].gating.allowed)
    {
      var instance := runtime.GetRuntimeInstanceByModelID(m);
      if instance.None? {
        return true;
      }
      ghost var found := FindByModel(Listing(runtime.View()), m);
      FoundIsRow(runtime.View(), m);
      var id := instance.value.id;
      assert id == found.value;
      ReconcileKeepsWellformed(runtime.View(), id, TaskTrigger(kind), env);
      var allowed := runtime.ReconcileRuntimeInstance(id, TaskTrigger(kind), env);
      admitted := !(StartsRuntime(kind) && allowed == Some(false));
    }

    method CreateRuntimeTask(kind: RuntimeTaskType, m: ModelId, env: Env) returns (stored: bool)
      requires runtime.Valid()
      modifies runtime, this
      ensures runtime.Valid()
      ensures m == "" ==> runtime.View() == old(runtime.View()) && tasks == old(tasks) && !stored
      ensures m != "" ==> var d := CreateTaskControl(Control(old(runtime.View()), old(tasks), {}), kind, m, env);
                          runtime.View() == d.table && tasks == d.tasks
      ensures stored <==> tasks == old(tasks) + [RuntimeTask(kind, m)]
      ensures (exists id :: Gated(old(runtime.View()), m, id)) && UniqueModels(old(runtime.View())) && StartsRuntime(kind)
              ==> !stored && tasks == old(tasks)
    {
      if m == "" {
        return false;
      }
      ghost var c := Control(runtime.View(), tasks, {});
      ghost var found := FindByModel(Listing(runtime.View()), m);
      stored := PrepareRuntimeTaskPlanContext(kind, m, env);
      if stored {
        tasks := tasks + [RuntimeTask(kind, m)];
      }
      RequestIsStep(c, kind, m, env, runtime.View(), stored);
      if UniqueModels(c.table) && StartsRuntime(kind) {
        forall id | Gated(c.table, m, id) ensures !stored {
          GatedTaskIsRefused(c, kind, m, env, id);
        }
      }
    }
  }

  lemma RequestIsStep(c: Control, kind: RuntimeTaskType, m: ModelId, env: Env, after: Table, stored: bool)
    requires Wellformed(c.table)
    requires var found := FindByModel(Listing(c.table), m);
             if found.None? then stored && after == c.table
             else
               && found.value in c.table.rows && found.value in after.rows
               && after == ReconcileOne(c.table, found.value, TaskTrigger(kind), env)
               && stored == (StartsRuntime(kind) ==> after.rows[found.value].gating.allowed)
    ensures var d := CreateTaskControl(c, kind, m, env);
            d.table == after && d.tasks == if stored then c.tasks + [RuntimeTask(kind, m)] else c.tasks
  {
  }
}
