/** The mutual-exclusion scheduler: at most one recorded holder per group. */
module Scheduling {

  type ModelId = string
  type Group = string

  /** The groups of the models that have a policy; an empty group excludes nothing. */
  type Policies = map<ModelId, Group>

  function GroupOf(policies: Policies, m: ModelId): Group {
    if m in policies then policies[m] else ""
  }

  predicate Holds(holders: map<Group, ModelId>, g: Group, m: ModelId) {
    g in holders && holders[g] == m
  }

  predicate MayRun(policies: Policies, holders: map<Group, ModelId>, m: ModelId) {
    var g := GroupOf(policies, m);
    g == "" || g !in holders || holders[g] == m
  }

  function Marked(policies: Policies, holders: map<Group, ModelId>, m: ModelId): map<Group, ModelId> {
    var g := GroupOf(policies, m);
    if g == "" then holders else holders[g := m]
  }

  function Unmarked(policies: Policies, holders: map<Group, ModelId>, m: ModelId): map<Group, ModelId> {
    var g := GroupOf(policies, m);
    if Holds(holders, g, m) && g != "" then holders - {g} else holders
  }

  class Scheduler {
    var policies: Policies
    var runningByGroup: map<Group, ModelId>

    constructor ()
      ensures policies == map[] && runningByGroup == map[]
    {
      policies, runningByGroup := map[], map[];
    }

    method SetPolicy(m: ModelId, group: Group)
      modifies this`policies
      ensures policies == old(policies)[m := group]
    {
      policies := policies[m := group];
    }

    method CanRun(m: ModelId) returns (ok: bool)
      ensures ok == MayRun(policies, runningByGroup, m)
      ensures !ok <==> exists o :: o != m && GroupOf(policies, m) != "" && Holds(runningByGroup, GroupOf(policies, m), o)
    {
      if m !in policies || policies[m] == "" {
        return true;
      }
      var group := policies[m];
      if group in runningByGroup && runningByGroup[group] != m {
        assert Holds(runningByGroup, group, runningByGroup[group]);
        return false;
      }
      return true;
    }

    method MarkRunning(m: ModelId)
      modifies this`runningByGroup
      ensures runningByGroup == Marked(policies, old(runningByGroup), m)
      ensures GroupOf(policies, m) != "" ==> Holds(runningByGroup, GroupOf(policies, m), m)
      ensures forall g, o | g != GroupOf(policies, m) || g == "" ::
                Holds(runningByGroup, g, o) <==> Holds(old(runningByGroup), g, o)
    {
      if m in policies && policies[m] != "" {
        runningByGroup := runningByGroup[policies[m] := m];
      }
    }

    method MarkStopped(m: ModelId)
      modifies this`runningByGroup
      ensures runningByGroup == Unmarked(policies, old(runningByGroup), m)
      ensures !Holds(runningByGroup, GroupOf(policies, m), m) || GroupOf(policies, m) == ""
      ensures forall g, o | o != m :: Holds(runningByGroup, g, o) <==> Holds(old(runningByGroup), g, o)
    {
      if m !in policies || policies[m] == "" {
        return;
      }
      var group := policies[m];
      if group in runningByGroup && runningByGroup[group] == m {
        runningByGroup := runningByGroup - {group};
      }
    }
  }
}
