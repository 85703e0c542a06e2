/** The task table and its callers as code: the transactional claim, the report, the executor's
    patches, and the executor itself. */
module TaskStore {
  import opened Wrappers
  import opened TaskProtocol

  class Store {
    var rows: Rows

    ghost predicate Valid()
      reads this
    {
      forall id | id in rows :: rows[id].id == id && RowOk(rows[id])
    }

    constructor ()
      ensures Valid() && rows == map[]
    {
      rows := map[];
    }

    method UpsertTask(t: Task)
      modifies this
      ensures rows == Save(old(rows), t)
      ensures t.id in rows && rows == old(rows)[t.id := rows[t.id]]
      ensures !t.status.NoStatus? ==> rows[t.id].status == t.status
      ensures t.status.NoStatus? ==> rows[t.id].status == Pending
      ensures rows[t.id].progress == if t.progress < 0 then 0 else if t.progress > 100 then 100 else t.progress
      ensures t.id in old(rows) ==> rows[t.id].createdKey == old(rows)[t.id].createdKey
    {
      var status := t.status;
      if status.NoStatus? {
        status := Pending;
      }
      var progress := t.progress;
      if progress < 0 {
        progress := 0;
      } else if progress > 100 {
        progress := 100;
      }
      var key := if t.id in rows then rows[t.id].createdKey else t.createdKey;
      rows := rows[t.id := t.(status := status, progress := progress, createdKey := key)];
    }

    /** Looks through the rows for a claimable one with the least key and marks it. */
    method ClaimPendingTaskForAgent(agent: AgentId, kinds: set<string>, now: Moment) returns (claimed: Option<Task>)
      requires Valid()
      modifies this
      ensures Valid()
      ensures claimed.None? ==> rows == old(rows)
                                && (agent == "" || forall o | o in rows :: !Claimable(rows[o], agent, kinds))
      ensures claimed.None? && agent != "" ==>
                forall o | o in rows ::
                  rows[o].status != Pending || rows[o].assignee != agent || (kinds != {} && rows[o].kind !in kinds)
      ensures claimed.Some? ==> agent != "" && IsNext(old(rows), claimed.value.id, agent, kinds)
                                && claimed.value == Claimed(old(rows)[claimed.value.id], agent, now)
                                && rows == old(rows)[claimed.value.id := claimed.value]
      ensures claimed.Some? ==>
                var before, t := old(rows)[claimed.value.id], claimed.value;
                && t.status == Dispatched && t.worker == agent == t.assignee && t.acceptedAt == now
                && t.progress == (if before.progress < 5 then 5 else before.progress)
                && before.status == Pending && (kinds == {} || before.kind in kinds)
                && (forall o | o in old(rows) && old(rows)[o].status == Pending && old(rows)[o].assignee == agent
                               && (kinds == {} || old(rows)[o].kind in kinds) ::
                      before.createdKey <= old(rows)[o].createdKey)
                && t == before.(status := t.status, worker := t.worker, acceptedAt := now, progress := t.progress)
    {
      if agent == "" {
        return None;
      }
      var best: Option<TaskId> := None;
      var rest := rows.Keys;
      while rest != {}
        invariant rest <= rows.Keys
        invariant best.None? ==> forall o | o in rows && o !in rest :: !Claimable(rows[o], agent, kinds)
        invariant best.Some? ==>
                    && best.value in rows && Claimable(rows[best.value], agent, kinds)
                    && forall o | o in rows && o !in rest && Claimable(rows[o], agent, kinds) ::
                         rows[best.value].createdKey <= rows[o].createdKey
        decreases |rest|
      {
        var id :| id in rest;
        if Claimable(rows[id], agent, kinds) && (best.None? || rows[id].createdKey < rows[best.value].createdKey) {
          best := Some(id);
        }
        rest := rest - {id};
      }
      if best.None? {
        return None;
      }
      var item := rows[best.value].(status := Dispatched, acceptedAt := now, worker := agent);
      if item.progress < 5 {
        item := item.(progress := 5);
      }
      rows := rows[best.value := item];
      return Some(item);
    }

    /** Reads the row, changes a copy, writes the copy back. */
    method PatchTask(id: TaskId, p: Patch, now: Moment)
      requires Valid()
      modifies this
      ensures Valid()
      ensures rows == if id in old(rows) then Save(old(rows), Patched(old(rows)[id], p, now)) else old(rows)
      ensures OnlyTouches(old(rows), rows, id)
    {
      if id in rows {
        var item := rows[id];
        PatchedRowOk(rows, item, p, now);
        UpsertTask(Patched(item, p, now));
      }
    }

    /** None when the task is unknown or belongs to another agent. */
    method ReportAgentTask(agent: AgentId, id: TaskId, r: TaskReport, now: Moment) returns (reported: Option<Task>)
      requires Valid()
      modifies this
      ensures Valid()
      ensures reported.Some? <==> agent != "" && id != "" && id in old(rows) && BelongsTo(old(rows)[id], agent)
      ensures reported.Some? <==> && agent != "" && id != "" && id in old(rows)
                                  && (old(rows)[id].assignee == "" || old(rows)[id].assignee == agent)
      ensures reported.None? ==> rows == old(rows)
      ensures reported.Some? ==> reported.value == Reported(old(rows)[id], agent, r, now)
                                 && rows == Save(old(rows), reported.value)
      ensures reported.Some? ==> id in rows && Records(old(rows)[id], rows[id], agent, r, now)
                                 && rows == old(rows)[id := rows[id]]
    {
      if agent == "" || id == "" || id !in rows {
        return None;
      }
      var task := rows[id];
      if task.assignee != "" && task.assignee != agent {
        return None;
      }
      WrittenRowOk(rows, Reporting(task, agent, r), now);
      ReportRecords(rows, task, agent, r, now);
      task := ApplyReport(task, agent, r, now);
      UpsertTask(task);
      return Some(task);
    }

    /** One attempt after the other: the agent's, then the controller's. */
    method RunAttempts(id: TaskId, w: World, now: Moment) returns (success: bool, failed: bool)
      requires Valid()
      modifies this
      ensures Valid() && OnlyTouches(old(rows), rows, id)
      ensures success && !failed <==> Achieved(w)
      ensures w.request != RestartRequest && w.agentAttempt == Some(true) ==> success && !failed
      ensures w.request == RestartRequest ==>
                (success && !failed <==> !w.stop.error && w.start.success && !w.start.error)
      ensures w.request != RestartRequest && w.agentAttempt != Some(true) ==>
                var call := if w.request == StartRequest then w.start
                            else if w.request == StopRequest then w.stop else w.refresh;
                (success && !failed <==> call.success && !call.error)
    {
      success, failed := false, false;
      if AgentMayTry(w.request) && w.agentAttempt.Some? {
        if w.agentAttempt.value {
          success := true;
        } else {
          PatchTask(id, NoteFallback, now);
        }
      }
      if !success && !failed {
        match w.request {
          case StartRequest => success, failed := w.start.success, w.start.error;
          case StopRequest => success, failed := w.stop.success, w.stop.error;
          case RefreshRequest => success, failed := w.refresh.success, w.refresh.error;
          case RestartRequest =>
            if w.stop.error {
              failed := true;
            } else {
              PatchTask(id, MarkStopped, now);
              success, failed := w.start.success, w.start.error;
            }
        }
      }
    }

    /** The executor of a runtime task. The task ends finished on every path: timed out if the
        deadline passed whatever the actions did, else succeeded exactly when the agent's attempt
        or the controller's own action did. */
    method ExecuteRuntimeTask(id: TaskId, w: World, now: Moment)
      requires Valid()
      modifies this
      ensures Valid() && OnlyTouches(old(rows), rows, id)
      ensures id in rows ==>
                && Terminal(rows[id].status)
                && (rows[id].status.TimedOut? <==> w.modelService && w.deadlinePassed)
                && (rows[id].status.Success? <==> w.modelService && !w.deadlinePassed && Achieved(w))
    {
      if !w.modelService {
        PatchTask(id, MarkFailed(false), now);
        return;
      }
      ghost var start := rows;
      PatchTask(id, MarkDispatched, now);
      ghost var dispatched := rows;
      PatchTask(id, MarkRunning, now);
      TouchesChain(start, dispatched, rows, id);
      ghost var running := rows;
      var success, failed := RunAttempts(id, w, now);
      TouchesChain(start, running, rows, id);
      ghost var tried := rows;
      FinishTask(id, w.deadlinePassed, success, failed, now);
      TouchesChain(start, tried, rows, id);
    }

    method FinishTask(id: TaskId, deadlinePassed: bool, success: bool, failed: bool, now: Moment)
      requires Valid()
      modifies this
      ensures Valid() && OnlyTouches(old(rows), rows, id)
      ensures id in rows ==>
                rows[id].status == if deadlinePassed then TimedOut else if failed || !success then Failed else Success
    {
      if deadlinePassed {
        PatchTask(id, MarkFailed(true), now);
      } else if failed {
        PatchTask(id, MarkFailed(false), now);
      } else if !success {
        PatchTask(id, MarkFailed(false), now);
      } else {
        PatchTask(id, MarkSuccess, now);
      }
    }
  }

  predicate OnlyTouches(before: Rows, after: Rows, id: TaskId) {
    && after.Keys == before.Keys && (id in after ==> after[id].assignee == before[id].assignee)
    && forall o | o in after && o != id :: after[o] == before[o]
  }

  lemma TouchesChain(a: Rows, b: Rows, c: Rows, id: TaskId)
    requires OnlyTouches(a, b, id) && OnlyTouches(b, c, id)
    ensures OnlyTouches(a, c, id)
  {
  }

  /** The row a report leaves, assigned field by field. */
  method ApplyReport(snapshot: Task, agent: AgentId, r: TaskReport, now: Moment) returns (task: Task)
    ensures task == Reported(snapshot, agent, r, now)
    ensures !r.status.NoStatus? ==> task.status == r.status
    ensures r.status.NoStatus? ==> task.status == snapshot.status
  {
    task := snapshot.(worker := agent);
    if r.acceptedAt != 0 {
      task := task.(acceptedAt := r.acceptedAt);
    }
    if !r.status.NoStatus? {
      task := task.(status := r.status);
    }
    if r.progress > 0 {
      task := task.(progress := Clamp(r.progress));
    }
    if task.status.InProgress? {
      task := task.(startedAt := if r.startedAt == 0 then now else r.startedAt);
      if task.progress == 0 {
        task := task.(progress := 70);
      }
    } else if Terminal(task.status) {
      if r.startedAt == 0 {
        if task.startedAt == 0 {
          task := task.(startedAt := now);
        }
      } else {
        task := task.(startedAt := r.startedAt);
      }
      task := task.(finishedAt := if r.finishedAt == 0 then now else r.finishedAt);
      if task.progress < 100 {
        task := task.(progress := 100);
      }
    }
  }

  /** How a call of the model service ends: with an error, or with a result that is a success
      or not. */
  datatype Outcome = Outcome(success: bool, error: bool)

  datatype Request = StartRequest | StopRequest | RestartRequest | RefreshRequest

  /** What the executor meets: whether the agent is tried and succeeds, how the controller's
      calls end, whether the deadline has passed when they are done. */
  datatype World = World(
    modelService: bool, request: Request, agentAttempt: Option<bool>,
    start: Outcome, stop: Outcome, refresh: Outcome, deadlinePassed: bool)

  predicate AgentMayTry(r: Request) {
    !r.RestartRequest?
  }

  predicate Done(o: Outcome) {
    o.success && !o.error
  }

  /** Some attempt succeeded. A restart needs its stop only not to end in an error. */
  predicate Achieved(w: World) {
    || (AgentMayTry(w.request) && w.agentAttempt == Some(true))
    || match w.request
       case StartRequest => Done(w.start)
       case StopRequest => Done(w.stop)
       case RefreshRequest => Done(w.refresh)
       case RestartRequest => !w.stop.error && Done(w.start)
  }

  /** A report that nothing interrupts is its read step followed by its write step. */
  lemma ReportIsReadThenWrite(b: Board, op: nat, agent: AgentId, id: TaskId, r: TaskReport, now: Moment)
    requires agent != "" && id in b.rows && BelongsTo(b.rows[id], agent) && op !in b.underWay
    ensures Apply(Apply(b, ReadForReport(op, agent, id, r)), WriteBack(op, now))
         == b.(rows := Save(b.rows, Reported(b.rows[id], agent, r, now)))
  {
    assert b.underWay[op := Reporting(b.rows[id], agent, r)] - {op} == b.underWay;
  }

  /** And so is a patch. */
  lemma PatchIsReadThenWrite(b: Board, op: nat, id: TaskId, p: Patch, now: Moment)
    requires id in b.rows && b.rows[id].assignee == "" && op !in b.underWay
    ensures Apply(Apply(b, ReadForPatch(op, id, p)), WriteBack(op, now))
         == b.(rows := Save(b.rows, Patched(b.rows[id], p, now)))
  {
    assert b.underWay[op := Patching(b.rows[id], p)] - {op} == b.underWay;
  }
}
