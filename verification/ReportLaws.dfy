/** What an agent's report makes of an instance, finding by finding, and what the reconcile after
    it then does. */
module ReportLaws {
  import opened Wrappers
  import opened RuntimeTypes
  import opened Conflict
  import opened Gating
  import opened Decisions
  import opened Reconcile
  import opened InstanceLaws
  import opened InstanceTable
  import opened ControlRuns
  import opened ControlInvariant
  import opened ReadinessLaws

  /** The time of the event, and what only a precheck changes. */
  lemma ReportTimes(i: Instance, r: Report, now: Time)
    ensures var s := Observed(i, r, now);
            && s.lastAgentTaskAt == r.eventAt && s.lastReconciledAt == now && s.desired == i.desired
            && s.lastPrecheckAt == (if r.finding.RuntimePrecheck? then now else i.lastPrecheckAt)
            && (s.precheckedByAgent <==> i.precheckedByAgent || r.finding.RuntimePrecheck?)
  {
  }

  /** Host ports the report names replace those of the instance. */
  lemma ReportedPorts(i: Instance, r: Report, now: Time)
    requires !r.finding.RuntimePrecheck? && !r.finding.PortCheck?
    ensures Observed(i, r, now).hostPorts == if r.hostPorts != [] then r.hostPorts else i.hostPorts
  {
  }

  /** A state the report names is what is observed, whatever was found. */
  lemma NamedStateIsObserved(i: Instance, r: Report, now: Time)
    requires r.observedState != Blank
    ensures Observed(i, r, now).observed == r.observedState
  {
  }

  /** The container of an instance, as a docker action found it. */
  predicate ContainerMissing(r: Report) {
    r.finding.DockerAction? && r.finding.exists_ == Some(false)
  }

  predicate ContainerRuns(r: Report) {
    r.finding.DockerAction? && r.finding.exists_ != Some(false) && r.finding.running == Some(true)
  }

  predicate ContainerIdle(r: Report) {
    r.finding.DockerAction? && r.finding.exists_ == Some(true) && r.finding.running != Some(true)
  }

  /** A missing container is stopped, a running one runs, one that is only there is loaded. Only a
      running one is ready, and exactly if it is not reported unready and the gate is open. */
  lemma DockerReport(i: Instance, r: Report, now: Time)
    requires r.finding.DockerAction?
    ensures var s := Observed(i, r, now);
            && (r.observedState == Blank && ContainerMissing(r) ==> s.observed == Stopped)
            && (r.observedState == Blank && ContainerRuns(r) ==> s.observed == Running)
            && (r.observedState == Blank && ContainerIdle(r) ==> s.observed == Loaded)
            && (ContainerMissing(r) || ContainerIdle(r) ==> s.readiness == NotReady)
            && (ContainerRuns(r) ==> s.readiness != ReadinessUnknown
                                     && (s.readiness == Ready <==> r.finding.ready != Some(false) && !i.precheck.gating))
  {
  }

  /** A docker action that found out nothing changes nothing but a readiness the gate forbids. */
  lemma SilentReport(i: Instance, r: Report, now: Time)
    requires r.finding.ResourceSnapshot?
             || (r.finding.DockerAction? && !ContainerMissing(r) && !ContainerRuns(r) && !ContainerIdle(r))
    ensures var s := Observed(i, r, now);
            && (r.observedState == Blank ==> s.observed == i.observed)
            && s.readiness == if i.precheck.gating && i.readiness == Ready then NotReady else i.readiness
  {
  }

  /** A readiness check makes the instance ready exactly if it says so, or succeeds without saying,
      and the gate is open; else it is not ready. Being ready counts as running if nothing else is
      known. */
  lemma ReadinessReport(i: Instance, r: Report, now: Time)
    requires r.finding.RuntimeReadiness?
    ensures var s := Observed(i, r, now);
            && s.readiness != ReadinessUnknown
            && (s.readiness == Ready
                <==> !i.precheck.gating
                     && (r.finding.ready == Some(true) || (r.finding.ready == None && r.success)))
            && (r.observedState == Blank ==>
                  s.observed == if i.observed == Blank && r.finding.ready == Some(true) then Running else i.observed)
  {
  }

  /** A port or path check that fails makes the instance not ready, one that succeeds says nothing
      about it; a path check fails also by not finding the path. Neither observes a state. */
  lemma CheckReport(i: Instance, r: Report, now: Time)
    requires r.finding.PortCheck? || r.finding.ModelPathCheck?
    ensures var s := Observed(i, r, now);
            var fails := !r.success || (r.finding.ModelPathCheck? && r.finding.exists_ == Some(false));
            && s.readiness == (if fails || (i.precheck.gating && i.readiness == Ready) then NotReady else i.readiness)
            && (r.observedState == Blank ==> s.observed == i.observed)
  {
  }

  /** The checked port joins the ports of the instance. */
  lemma CheckedPortIsKept(i: Instance, r: Report, now: Time, port: string)
    requires r.finding.PortCheck?
    ensures port in Observed(i, r, now).hostPorts
       <==> port in (if r.hostPorts != [] then r.hostPorts else i.hostPorts) || r.finding.hostPort == Some(port)
  {
  }

  lemma AboutCodes(i: Instance, r: PrecheckResult, code: Code)
    requires code != NoCode
    ensures var about := seq(|r.reasons|, k requires 0 <= k < |r.reasons| =>
                               Reason(r.reasons[k].code, r.reasons[k].blocking, FromAgent, i.id));
            code in Codes(about) <==> exists x :: x in r.reasons && x.code == code
  {
    var about := seq(|r.reasons|, k requires 0 <= k < |r.reasons| =>
                       Reason(r.reasons[k].code, r.reasons[k].blocking, FromAgent, i.id));
    CodesOntoIff([], about, code);
    forall x | x in r.reasons && x.code == code ensures exists y :: y in about && y.code == code {
      var k :| 0 <= k < |r.reasons| && r.reasons[k] == x;
      assert about[k].code == code;
    }
    forall y | y in about && y.code == code ensures exists x :: x in r.reasons && x.code == code {
      var k :| 0 <= k < |about| && about[k] == y;
      assert r.reasons[k].code == code;
    }
  }

  /** A precheck leaves its own status, gate and codes; a bare success is ok, a bare failure gates
      with the failures it lists. A closed gate makes the instance not ready, an open one says
      nothing about it. No state is observed. */
  lemma PrecheckReport(i: Instance, r: Report, now: Time)
    requires r.finding.RuntimePrecheck?
    ensures var s := Observed(i, r, now);
            && (s.precheck.gating <==> GatingPrecheck(r))
            && s.precheck.status == (if r.finding.result.Some? then r.finding.result.value.status
                                     else if r.success then PrecheckOk else PrecheckFailed)
            && s.readiness == (if GatingPrecheck(r) then NotReady else i.readiness)
            && (r.observedState == Blank ==> s.observed == i.observed)
  {
  }

  lemma PrecheckReportCodes(i: Instance, r: Report, now: Time, code: Code)
    requires r.finding.RuntimePrecheck? && code != NoCode
    ensures code in Observed(i, r, now).precheck.reasons
       <==> if r.finding.result.Some? then exists x :: x in r.finding.result.value.reasons && x.code == code
            else !r.success && code in r.finding.failures
  {
    if r.finding.result.Some? {
      AboutCodes(i, r.finding.result.value, code);
    }
  }

  // ---- The report and the reconcile that follows it ----

  lemma StoredKeepsStates(i: Instance)
    ensures var s := Stored(i);
            && s.desired == i.desired && s.observed == i.observed && s.readiness == i.readiness && s.id == i.id
  {
  }

  lemma SeenRowIsReconciled(t: Table, id: InstanceId, r: Report, env: Env)
    requires Wellformed(t) && id in t.rows
    ensures var seen := Stored(Observed(t.rows[id], r, env.now));
            && seen.id == id && Wellformed(Put(t, seen))
            && Observe(t, id, r, env) == ReconcileOne(Put(t, seen), id, AgentTaskReport, env)
            && Put(t, seen).rows == t.rows[id := seen]
  {
    var seen := Stored(Observed(t.rows[id], r, env.now));
    StoredKeepsStates(Observed(t.rows[id], r, env.now));
    ReportFrame(t.rows[id], r, env.now);
    PutKeepsWellformed(t, seen);
  }

  /** The row a report and its reconcile leave. */
  lemma ReportedRow(t: Table, id: InstanceId, r: Report, env: Env)
    requires Wellformed(t) && id in t.rows
    ensures var seen := Stored(Observed(t.rows[id], r, env.now));
            && Wellformed(Put(t, seen)) && id in Observe(t, id, r, env).rows
            && Observe(t, id, r, env).rows[id] == Reconciled(seen, Listing(Put(t, seen)), AgentTaskReport, env)
  {
    var u := Put(t, Stored(Observed(t.rows[id], r, env.now)));
    SeenRowIsReconciled(t, id, r, env);
    ReconcileFrame(u, id, AgentTaskReport, env);
  }

  /** What is stored in between has the states the report left. */
  lemma SeenStates(i: Instance, r: Report, now: Time)
    requires Sound(i) && ProperReport(r)
    ensures var s, o := Stored(Observed(i, r, now)), Observed(i, r, now);
            && s.desired == i.desired && s.observed == o.observed && s.readiness == o.readiness
            && s.precheck.gating == (if r.finding.RuntimePrecheck? then GatingPrecheck(r) else i.precheck.gating)
  {
    ReportTimes(i, r, now);
    ReportKeepsSound(i, r, now);
    StoredKeepsStates(Observed(i, r, now));
  }

  /** When the container of an instance that should run is reported missing, the instance is stopped
      and not ready, and its next plan is to load it again, be that granted or not. */
  lemma MissingContainerIsLoadedAgain(t: Table, id: InstanceId, r: Report, env: Env)
    requires Wellformed(t) && id in t.rows && Sound(t.rows[id]) && ProperReport(r)
    requires t.rows[id].desired == Running && ContainerMissing(r) && r.observedState == Blank
    ensures var row := Observe(t, id, r, env).rows[id];
            && row.observed == Stopped && row.readiness == NotReady && row.lastPlan.action == Load
            && row.lastPlan.status != Completed
  {
    var seen := Stored(Observed(t.rows[id], r, env.now));
    ReportedRow(t, id, r, env);
    SeenStates(t.rows[id], r, env.now);
    DockerReport(t.rows[id], r, env.now);
    PhasesAfterReconcile(seen, Listing(Put(t, seen)), AgentTaskReport, env);
    ReadinessExact(seen, Listing(Put(t, seen)), AgentTaskReport, env);
    PlanFollowsTarget(seen, Listing(Put(t, seen)), AgentTaskReport, env);
  }

  /** When it is reported running, and its gate is open, it is ready unless reported unready, and
      there is nothing left to do. */
  lemma RunningContainerIsDone(t: Table, id: InstanceId, r: Report, env: Env)
    requires Wellformed(t) && id in t.rows && Sound(t.rows[id]) && ProperReport(r)
    requires t.rows[id].desired == Running && !t.rows[id].precheck.gating
    requires ContainerRuns(r) && (r.observedState == Blank || r.observedState == Running)
    ensures var row := Observe(t, id, r, env).rows[id];
            && row.observed == Running && (row.readiness == Ready <==> r.finding.ready != Some(false))
            && row.lastPlan.action == NoAction && row.lastPlan.status == Completed
  {
    var seen := Stored(Observed(t.rows[id], r, env.now));
    ReportedRow(t, id, r, env);
    SeenStates(t.rows[id], r, env.now);
    DockerReport(t.rows[id], r, env.now);
    if r.observedState != Blank {
      NamedStateIsObserved(t.rows[id], r, env.now);
    }
    PhasesAfterReconcile(seen, Listing(Put(t, seen)), AgentTaskReport, env);
    ReadinessExact(seen, Listing(Put(t, seen)), AgentTaskReport, env);
    PlanFollowsTarget(seen, Listing(Put(t, seen)), AgentTaskReport, env);
  }
}
