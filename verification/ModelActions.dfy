/** The model service's action as code: node lock, checks, runtime call, record, unlock. Run by
    itself it is one begin, one call and one finish of the interleaved model. */
module ModelActions {
  import opened Scheduling
  import opened SchedulerRuns

  /** How the runtime answers the calls one action makes. */
  datatype Runtime = Runtime(stopFirst: Answer, call: Answer, statusAnswers: bool)

  /** A container that is thought to run is stopped before it is unloaded. */
  predicate StopsFirst(cfg: Config, a: Action, m: ModelId, seen: State) {
    a.Unload? && m in cfg.containers && (seen.Running? || seen.Busy?)
  }

  function Overall(cfg: Config, a: Action, m: ModelId, seen: State, rt: Runtime): Answer {
    if !StopsFirst(cfg, a, m, seen) then rt.call
    else if !rt.stopFirst.Succeeded? then rt.stopFirst
    else if rt.call.Succeeded? then Succeeded
    else FailedStopped
  }

  /** A stop that has to come first fails, and ends the action. */
  predicate StopFails(cfg: Config, a: Action, m: ModelId, seen: State, rt: Runtime) {
    StopsFirst(cfg, a, m, seen) && !rt.stopFirst.Succeeded?
  }

  /** Every call the action makes succeeds. */
  predicate Succeeds(cfg: Config, a: Action, m: ModelId, seen: State, rt: Runtime) {
    rt.call.Succeeded? && !StopFails(cfg, a, m, seen, rt)
  }

  /** The steps of one admitted action. */
  function ActionSteps(cfg: Config, a: Action, m: ModelId, seen: State, rt: Runtime): seq<Step>
    requires m in cfg.nodes
  {
    [Begin(a, m, seen), Act(LockOf(cfg, m), Overall(cfg, a, m, seen, rt)), Finish(LockOf(cfg, m))]
    + if m in cfg.containers && rt.statusAnswers then [Refresh(m)] else []
  }

  class ModelService {
    const cfg: Config
    const scheduler: Scheduler
    var nodeActions: set<string>
    /** What the runtimes are doing. */
    var active: set<ModelId>
    /** The actions that hold the locks. */
    ghost var flights: map<string, Flight>

    ghost predicate Valid()
      reads this, scheduler
    {
      nodeActions == flights.Keys && scheduler.policies == cfg.policies
    }

    ghost function View(): Fleet
      reads this, scheduler
    {
      Fleet(scheduler.runningByGroup, active, flights)
    }

    predicate NodeIsFree(m: ModelId, locked: set<string>) {
      m in cfg.nodes && LockOf(cfg, m) !in locked
    }

    /** Another model holds the model's group. */
    ghost predicate Excluded(m: ModelId)
      reads this, scheduler
    {
      exists o :: o != m && GroupOf(cfg.policies, m) != "" && Holds(scheduler.runningByGroup, GroupOf(cfg.policies, m), o)
    }

    constructor (cfg: Config, scheduler: Scheduler)
      requires scheduler.policies == cfg.policies
      ensures Valid() && this.cfg == cfg && this.scheduler == scheduler
      ensures View() == Fleet(scheduler.runningByGroup, {}, map[])
    {
      this.cfg, this.scheduler := cfg, scheduler;
      nodeActions, active, flights := {}, {}, map[];
    }

    method TryLockNodeAction(node: string) returns (locked: bool)
      modifies this`nodeActions
      ensures locked <==> node !in old(nodeActions)
      ensures nodeActions == old(nodeActions) + {node}
    {
      if node in nodeActions {
        return false;
      }
      nodeActions := nodeActions + {node};
      return true;
    }

    method UnlockNodeAction(node: string)
      modifies this`nodeActions
      ensures nodeActions == old(nodeActions) - {node}
    {
      nodeActions := nodeActions - {node};
    }

    method CallRuntime(a: Action, m: ModelId, answer: Answer)
      modifies this`active
      ensures active == ActiveAfter(cfg, Fleet(map[], old(active), map[]), Flight(a, m, false, false), answer)
    {
      if answer.Succeeded? && Raises(cfg, a, m) {
        active := active + {m};
      } else if !answer.FailedUnchanged? {
        active := active - {m};
      }
    }

    /** The runtime calls of an admitted action; true when the action succeeded. */
    method CallRuntimes(a: Action, m: ModelId, seen: State, rt: Runtime) returns (ok: bool)
      modifies this`active
      ensures ok == Overall(cfg, a, m, seen, rt).Succeeded? == Succeeds(cfg, a, m, seen, rt)
      ensures forall o | o != m :: o in active <==> o in old(active)
      ensures ok ==> (m in active <==> a.Start? || (a.Load? && m !in cfg.containers))
      ensures StopFails(cfg, a, m, seen, rt) ==> (m in active ==> m in old(active))
      ensures !StopsFirst(cfg, a, m, seen) && rt.call == FailedUnchanged ==> active == old(active)
      ensures active == ActiveAfter(cfg, Fleet(map[], old(active), map[]), Flight(a, m, false, false),
                                    Overall(cfg, a, m, seen, rt))
    {
      if a.Unload? && m in cfg.containers && (seen.Running? || seen.Busy?) {
        CallRuntime(Stop, m, rt.stopFirst);
        if !rt.stopFirst.Succeeded? {
          return false;
        }
      }
      CallRuntime(a, m, rt.call);
      ok := rt.call.Succeeded?;
    }

    method Record(a: Action, m: ModelId)
      requires scheduler.policies == cfg.policies
      modifies scheduler`runningByGroup
      ensures scheduler.runningByGroup
           == if Raises(cfg, a, m) then Marked(cfg.policies, old(scheduler.runningByGroup), m)
              else Unmarked(cfg.policies, old(scheduler.runningByGroup), m)
    {
      match a
      case Load =>
        if m in cfg.containers {
          scheduler.MarkStopped(m);
        } else {
          scheduler.MarkRunning(m);
        }
      case Start => scheduler.MarkRunning(m);
      case Unload => scheduler.MarkStopped(m);
      case Stop => scheduler.MarkStopped(m);
    }

    /** The runtime's word on a container: running or not. */
    method ReconcileContainerModel(m: ModelId)
      requires Valid()
      modifies scheduler`runningByGroup
      ensures Valid() && View() == Apply(cfg, old(View()), Refresh(m))
      ensures GroupOf(cfg.policies, m) != "" ==>
                (Holds(scheduler.runningByGroup, GroupOf(cfg.policies, m), m) <==> m in active)
    {
      if m in active {
        scheduler.MarkRunning(m);
      } else {
        scheduler.MarkStopped(m);
      }
    }

    /** Lookup, lock, checks: the beginning of an action, or a refusal that changes nothing. */
    method BeginAction(a: Action, m: ModelId, seen: State) returns (admitted: bool)
      requires Valid()
      modifies this`nodeActions, this`flights
      ensures Valid() && View() == Apply(cfg, old(View()), Begin(a, m, seen))
      ensures admitted ==> m in cfg.nodes && LockOf(cfg, m) !in old(nodeActions)
      ensures a.Load? || a.Start? ==> (admitted ==> !Excluded(m))
      ensures NodeIsFree(m, old(nodeActions)) && TellsTruth(seen, m in cfg.containers, m in active) ==>
                && (a.Stop? ==> (admitted <==> m in active))
                && (a.Unload? ==> (admitted <==> m in active || (m in cfg.containers && seen == Loaded)))
                && (a.Load? ==> (admitted <==> m !in active && !(m in cfg.containers && seen == Loaded) && !Excluded(m)))
                && (a.Start? ==> (admitted <==> (m in cfg.containers || m !in active) && !Excluded(m)))
      ensures NodeIsFree(m, old(nodeActions)) && (seen.Unknown? || seen.Errored? || seen.OtherState?) ==>
                (admitted <==> (a.Load? || a.Start?) && !(m in cfg.containers && seen == OtherState) && !Excluded(m))
      ensures admitted ==> && m in cfg.nodes && LockOf(cfg, m) in flights
                           && flights == old(flights)[LockOf(cfg, m) := Flight(a, m, false, false)]
      ensures !admitted ==> View() == old(View())
    {
      if m !in cfg.nodes {
        return false;
      }
      var node := LockOf(cfg, m);
      var locked := TryLockNodeAction(node);
      if !locked {
        return false;
      }
      StateAdmits(a, m in cfg.containers, m in active, seen);
      admitted := Allowed(a, m in cfg.containers, seen);
      if admitted && (a.Load? || a.Start?) {
        admitted := scheduler.CanRun(m);
      }
      if admitted {
        flights := flights[node := Flight(a, m, false, false)];
      } else {
        UnlockNodeAction(node);
      }
    }

    /** A success is recorded, and the lock given back. */
    method FinishAction(a: Action, m: ModelId, ok: bool)
      requires Valid() && m in cfg.nodes && LockOf(cfg, m) in flights
      requires flights[LockOf(cfg, m)] == Flight(a, m, true, ok)
      modifies this`nodeActions, this`flights, scheduler`runningByGroup
      ensures Valid() && View() == Apply(cfg, old(View()), Finish(LockOf(cfg, m)))
      ensures nodeActions == old(nodeActions) - {LockOf(cfg, m)}
      ensures ok && GroupOf(cfg.policies, m) != "" ==>
                (Holds(scheduler.runningByGroup, GroupOf(cfg.policies, m), m)
                 <==> a.Start? || (a.Load? && m !in cfg.containers))
    {
      var node := LockOf(cfg, m);
      if ok {
        Record(a, m);
      }
      UnlockNodeAction(node);
      flights := flights - {node};
    }

    method ExecuteAction(a: Action, m: ModelId, seen: State, rt: Runtime) returns (admitted: bool)
      requires Valid()
      modifies this`nodeActions, this`flights, this`active, scheduler`runningByGroup
      ensures Valid()
      ensures !admitted ==> View() == old(View())
      ensures admitted ==> m in cfg.nodes && View() == Run(cfg, old(View()), ActionSteps(cfg, a, m, seen, rt))
      ensures nodeActions == old(nodeActions)
      ensures forall o | o != m :: o in active <==> o in old(active)
      ensures admitted && Succeeds(cfg, a, m, seen, rt) ==>
                (m in active <==> a.Start? || (a.Load? && m !in cfg.containers))
      ensures admitted && Succeeds(cfg, a, m, seen, rt) && GroupOf(cfg.policies, m) != "" ==>
                (Holds(scheduler.runningByGroup, GroupOf(cfg.policies, m), m) <==> m in active)
      ensures admitted && m in cfg.containers && rt.statusAnswers && GroupOf(cfg.policies, m) != "" ==>
                (Holds(scheduler.runningByGroup, GroupOf(cfg.policies, m), m) <==> m in active)
      ensures admitted && StopFails(cfg, a, m, seen, rt) ==> (m in active ==> m in old(active))
      ensures admitted && !StopFails(cfg, a, m, seen, rt) && rt.call == FailedUnchanged && !StopsFirst(cfg, a, m, seen)
              ==> active == old(active)
      ensures NodeIsFree(m, old(nodeActions)) && TellsTruth(seen, m in cfg.containers, m in old(active))
              && m in old(active) && (a.Stop? || a.Unload?) && Succeeds(cfg, a, m, seen, rt)
              ==> admitted && m !in active
    {
      ghost var f0 := View();
      admitted := BeginAction(a, m, seen);
      if !admitted {
        return;
      }
      ghost var f1 := View();
      var node := LockOf(cfg, m);
      var ok := CallRuntimes(a, m, seen, rt);
      flights := flights[node := Flight(a, m, true, ok)];
      ghost var f2 := View();
      assert f2 == Apply(cfg, f1, Act(node, Overall(cfg, a, m, seen, rt)));
      FinishAction(a, m, ok);
      ghost var f3 := View();
      if m in cfg.containers && rt.statusAnswers {
        ReconcileContainerModel(m);
      }
      RunThese(cfg, a, m, seen, rt, f0, f1, f2, f3);
    }
  }

  /** What the registry's state says about an action when it tells the truth, and when it tells
      nothing. */
  lemma StateAdmits(a: Action, container: bool, active: bool, seen: State)
    ensures TellsTruth(seen, container, active) ==>
              && (a.Stop? ==> (Allowed(a, container, seen) <==> active))
              && (a.Unload? ==> (Allowed(a, container, seen) <==> active || (container && seen == Loaded)))
              && (a.Load? ==> (Allowed(a, container, seen) <==> !active && !(container && seen == Loaded)))
              && (a.Start? ==> (Allowed(a, container, seen) <==> container || !active))
    ensures seen.Unknown? || seen.Errored? || seen.OtherState? ==>
              (Allowed(a, container, seen) <==> (a.Load? || a.Start?) && !(container && seen == OtherState))
  {
    if TellsTruth(seen, container, active) {
      AllowedInTruth(seen, container, active);
    } else if seen.Unknown? || seen.Errored? || seen.OtherState? {
      AllowedInDoubt(seen, container);
    }
  }

  lemma RunThese(cfg: Config, a: Action, m: ModelId, seen: State, rt: Runtime, f0: Fleet, f1: Fleet, f2: Fleet, f3: Fleet)
    requires m in cfg.nodes && f1 == Apply(cfg, f0, Begin(a, m, seen))
    requires f2 == Apply(cfg, f1, Act(LockOf(cfg, m), Overall(cfg, a, m, seen, rt)))
    requires f3 == Apply(cfg, f2, Finish(LockOf(cfg, m)))
    ensures Run(cfg, f0, ActionSteps(cfg, a, m, seen, rt))
         == if m in cfg.containers && rt.statusAnswers then Apply(cfg, f3, Refresh(m)) else f3
  {
    var s := ActionSteps(cfg, a, m, seen, rt);
    assert Run(cfg, f0, s) == Run(cfg, f1, s[1..]);
    assert Run(cfg, f1, s[1..]) == Run(cfg, f2, s[1..][1..]);
    assert Run(cfg, f2, s[1..][1..]) == Run(cfg, f3, s[1..][1..][1..]);
    if m in cfg.containers && rt.statusAnswers {
      assert s[1..][1..][1..] == [Refresh(m)];
      assert [Refresh(m)][1..] == [];
    } else {
      assert s[1..][1..][1..] == [];
    }
  }
}
