/** The task table under concurrency. A claim is one transaction; a report and a patch read a
    row in one step and write the whole row back in a later one, so any number of other steps
    may come between and their updates may be lost. */
module TaskProtocol {
  import opened Wrappers

  type TaskId = string
  type AgentId = string
  type Time = nat

  /** A reading of the clock, never Go's zero time. */
  type Moment = t: nat | t > 0 witness 1

  datatype Status =
    | NoStatus | Pending | Dispatched | InProgress
    | Success | Failed | TimedOut | Canceled | OtherStatus(text: string)

  predicate Terminal(s: Status) {
    s.Success? || s.Failed? || s.TimedOut? || s.Canceled?
  }

  /** A row. `createdKey` is the rank of its created_at text in text order. */
  datatype Task = Task(
    id: TaskId, kind: string, assignee: AgentId, worker: AgentId, status: Status, progress: int,
    acceptedAt: Time, startedAt: Time, finishedAt: Time, createdKey: nat)

  datatype TaskReport = TaskReport(
    status: Status, progress: int, acceptedAt: Time, startedAt: Time, finishedAt: Time)

  type Rows = map<TaskId, Task>

  function Clamp(p: int): int {
    if p < 0 then 0 else if p > 100 then 100 else p
  }

  function Max(a: int, b: int): int {
    if b > a then Clamp(b) else Clamp(a)
  }

  /** What a save stores: progress clamped, a blank status turned pending, the first creation
      time kept. */
  function SavedTask(rows: Rows, t: Task): Task {
    t.(status := if t.status.NoStatus? then Pending else t.status, progress := Clamp(t.progress),
       createdKey := if t.id in rows then rows[t.id].createdKey else t.createdKey)
  }

  function Save(rows: Rows, t: Task): Rows {
    rows[t.id := SavedTask(rows, t)]
  }

  // ---- Claim ----

  predicate Claimable(t: Task, agent: AgentId, kinds: set<string>) {
    t.status.Pending? && t.assignee == agent && (kinds == {} || t.kind in kinds)
  }

  /** A claim takes a claimable row with the least key; ties are the database's choice. */
  predicate IsNext(rows: Rows, id: TaskId, agent: AgentId, kinds: set<string>) {
    && id in rows && Claimable(rows[id], agent, kinds)
    && forall o | o in rows && Claimable(rows[o], agent, kinds) :: rows[id].createdKey <= rows[o].createdKey
  }

  lemma {:induction false} LeastKey(rows: Rows, ids: set<TaskId>) returns (least: TaskId)
    requires ids != {} && ids <= rows.Keys
    ensures least in ids && forall o | o in ids :: rows[least].createdKey <= rows[o].createdKey
    decreases ids
  {
    var x :| x in ids;
    least := x;
    if ids != {x} {
      var y := LeastKey(rows, ids - {x});
      if rows[y].createdKey <= rows[x].createdKey { least := y; }
    }
  }

  /** A claim is possible exactly when some row can be claimed. */
  lemma ClaimPossibleIff(rows: Rows, agent: AgentId, kinds: set<string>)
    ensures (exists id :: IsNext(rows, id, agent, kinds)) <==> exists o :: o in rows && Claimable(rows[o], agent, kinds)
  {
    if o :| o in rows && Claimable(rows[o], agent, kinds) {
      var claimable := set x | x in rows && Claimable(rows[x], agent, kinds);
      assert o in claimable;
      var id := LeastKey(rows, claimable);
      assert IsNext(rows, id, agent, kinds);
    }
  }

  function Claimed(t: Task, agent: AgentId, now: Moment): Task {
    t.(status := Dispatched, acceptedAt := now, worker := agent, progress := if t.progress > 5 then t.progress else 5)
  }

  /** An agent that claims twice in a row gets two rows, in the order of their keys. */
  lemma ClaimsComeInKeyOrder(rows: Rows, agent: AgentId, kinds: set<string>, now: Moment, first: TaskId, second: TaskId)
    requires IsNext(rows, first, agent, kinds)
    requires IsNext(rows[first := Claimed(rows[first], agent, now)], second, agent, kinds)
    ensures second != first && second in rows && rows[first].createdKey <= rows[second].createdKey
  {
    var after := rows[first := Claimed(rows[first], agent, now)];
    assert !Claimable(after[first], agent, kinds);
    assert after[second] == rows[second] && Claimable(rows[second], agent, kinds);
  }

  // ---- Report ----

  predicate BelongsTo(t: Task, agent: AgentId) {
    t.assignee == "" || t.assignee == agent
  }

  function ReportedStatus(snapshot: Task, r: TaskReport): Status {
    if r.status.NoStatus? then snapshot.status else r.status
  }

  /** The row a report writes, made from the row it read. */
  function Reported(snapshot: Task, agent: AgentId, r: TaskReport, now: Moment): Task {
    var t := snapshot.(
      worker := agent, acceptedAt := if r.acceptedAt != 0 then r.acceptedAt else snapshot.acceptedAt,
      status := ReportedStatus(snapshot, r),
      progress := if r.progress > 0 then Clamp(r.progress) else snapshot.progress);
    if t.status.InProgress? then
      t.(startedAt := if r.startedAt == 0 then now else r.startedAt,
         progress := if t.progress == 0 then 70 else t.progress)
    else if Terminal(t.status) then
      t.(startedAt := if r.startedAt != 0 then r.startedAt else if t.startedAt == 0 then now else t.startedAt,
         finishedAt := if r.finishedAt == 0 then now else r.finishedAt,
         progress := if t.progress < 100 then 100 else t.progress)
    else t
  }

  /** What an accepted report leaves in a row: its own status if it names one, the agent as worker,
      the times it names. A finished task is at 100 and finished now unless the report says when; a
      task in progress is started now unless it says when, and is at 70 if nothing says more. */
  predicate Records(before: Task, after: Task, agent: AgentId, r: TaskReport, now: Moment) {
    && after.id == before.id && after.kind == before.kind && after.assignee == before.assignee
    && after.createdKey == before.createdKey && after.worker == agent
    && (!r.status.NoStatus? ==> after.status == r.status)
    && (r.status.NoStatus? && !before.status.NoStatus? ==> after.status == before.status)
    && (r.status.NoStatus? && before.status.NoStatus? ==> after.status == Pending)
    && after.acceptedAt == (if r.acceptedAt != 0 then r.acceptedAt else before.acceptedAt)
    && (r.startedAt != 0 && (Terminal(after.status) || after.status.InProgress?) ==> after.startedAt == r.startedAt)
    && (r.startedAt == 0 && after.status.InProgress? ==> after.startedAt == now)
    && (r.startedAt == 0 && Terminal(after.status) ==>
          after.startedAt == if before.startedAt == 0 then now else before.startedAt)
    && (Terminal(after.status) ==>
          after.progress == 100 && after.finishedAt == if r.finishedAt == 0 then now else r.finishedAt)
    && (!Terminal(after.status) ==> after.finishedAt == before.finishedAt)
    && (!Terminal(after.status) && r.progress > 0 ==> after.progress == if r.progress > 100 then 100 else r.progress)
    && (!Terminal(after.status) && r.progress <= 0 && before.progress != 0 ==> after.progress == Clamp(before.progress))
    && (!Terminal(after.status) && r.progress <= 0 && before.progress == 0 ==>
          after.progress == if after.status.InProgress? then 70 else 0)
    && (!Terminal(after.status) && !after.status.InProgress? ==> after.startedAt == before.startedAt)
  }

  lemma ReportRecords(rows: Rows, snapshot: Task, agent: AgentId, r: TaskReport, now: Moment)
    ensures var after := SavedTask(rows, Reported(snapshot, agent, r, now));
            Records(snapshot, after.(createdKey := snapshot.createdKey), agent, r, now)
  {
  }

  // ---- Patches of the executor ----

  datatype Patch = MarkDispatched | MarkRunning | NoteFallback | MarkStopped | MarkSuccess | MarkFailed(timeout: bool)

  function Patched(t: Task, p: Patch, now: Moment): Task {
    match p
    case MarkDispatched => t.(status := Dispatched, progress := Max(t.progress, 10))
    case MarkRunning => t.(status := InProgress, startedAt := now, progress := Max(t.progress, 30))
    case NoteFallback => t
    case MarkStopped => t.(progress := Max(t.progress, 65))
    case MarkSuccess =>
      t.(status := Success, progress := 100, startedAt := if t.startedAt == 0 then now else t.startedAt, finishedAt := now)
    case MarkFailed(timeout) =>
      t.(status := if timeout then TimedOut else Failed, progress := 100,
         startedAt := if t.startedAt == 0 then now else t.startedAt, finishedAt := now)
  }

  // ---- Runs ----

  /** A report or a patch between its read and its write. */
  datatype Operation =
    | Reporting(snapshot: Task, agent: AgentId, report: TaskReport)
    | Patching(snapshot: Task, patch: Patch)

  /** The rows, the operations under way, and a history: how often each task was handed out. */
  datatype Board = Board(rows: Rows, underWay: map<nat, Operation>, handouts: multiset<TaskId>)

  datatype Step =
    | CreateStep(id: TaskId, kind: string, assignee: AgentId, createdKey: nat)
    | ClaimStep(agent: AgentId, kinds: set<string>, choice: TaskId, now: Moment)
    | ReadForReport(op: nat, agent: AgentId, id: TaskId, report: TaskReport)
    | ReadForPatch(op: nat, id: TaskId, patch: Patch)
    | WriteBack(op: nat, now: Moment)

  function NewTask(id: TaskId, kind: string, assignee: AgentId, createdKey: nat): Task {
    Task(id, kind, assignee, "", Pending, 0, 0, 0, 0, createdKey)
  }

  function Written(o: Operation, now: Moment): Task {
    match o
    case Reporting(snapshot, agent, report) => Reported(snapshot, agent, report, now)
    case Patching(snapshot, patch) => Patched(snapshot, patch, now)
  }

  /** A step that is not possible changes nothing. The executor patches only runtime tasks, which
      are assigned to no agent. */
  function Apply(b: Board, s: Step): Board {
    match s
    case CreateStep(id, kind, assignee, createdKey) =>
      if id == "" || id in b.rows then b else b.(rows := Save(b.rows, NewTask(id, kind, assignee, createdKey)))
    case ClaimStep(agent, kinds, choice, now) =>
      if agent == "" || !IsNext(b.rows, choice, agent, kinds) then b
      else b.(rows := b.rows[choice := Claimed(b.rows[choice], agent, now)], handouts := b.handouts + multiset{choice})
    case ReadForReport(op, agent, id, report) =>
      if agent == "" || id !in b.rows || !BelongsTo(b.rows[id], agent) || op in b.underWay then b
      else b.(underWay := b.underWay[op := Reporting(b.rows[id], agent, report)])
    case ReadForPatch(op, id, patch) =>
      if id !in b.rows || b.rows[id].assignee != "" || op in b.underWay then b
      else b.(underWay := b.underWay[op := Patching(b.rows[id], patch)])
    case WriteBack(op, now) =>
      if op !in b.underWay then b
      else b.(rows := Save(b.rows, Written(b.underWay[op], now)), underWay := b.underWay - {op})
  }

  function Run(b: Board, steps: seq<Step>): Board
    decreases |steps|
  {
    if steps == [] then b else Run(Apply(b, steps[0]), steps[1..])
  }

  const EMPTY := Board(map[], map[], multiset{})

  // ---- What every row satisfies ----

  /** Progress in range; a finished task is at 100 and has both its times; its worker is the
      agent it is assigned to, if any. */
  predicate RowOk(t: Task) {
    && !t.status.NoStatus? && 0 <= t.progress <= 100
    && (Terminal(t.status) ==> t.progress == 100 && t.startedAt != 0 && t.finishedAt != 0)
    && (t.assignee != "" ==> t.worker == "" || t.worker == t.assignee)
  }

  /** Snapshots were rows once, and still are of the same task and agent. */
  predicate OperationOk(rows: Rows, o: Operation) {
    && o.snapshot.id in rows && o.snapshot.assignee == rows[o.snapshot.id].assignee && RowOk(o.snapshot)
    && match o
       case Reporting(snapshot, agent, _) => BelongsTo(snapshot, agent)
       case Patching(snapshot, _) => snapshot.assignee == ""
  }

  ghost predicate BoardOk(b: Board) {
    && (forall id | id in b.rows :: b.rows[id].id == id && RowOk(b.rows[id]))
    && (forall op | op in b.underWay :: OperationOk(b.rows, b.underWay[op]))
    && (forall id | id in b.handouts :: id in b.rows && b.rows[id].assignee != "")
  }

  /** A patch of a row that is in order is in order once saved. */
  lemma PatchedRowOk(rows: Rows, t: Task, p: Patch, now: Moment)
    requires RowOk(t)
    ensures RowOk(SavedTask(rows, Patched(t, p, now))) && Patched(t, p, now).assignee == t.assignee
  {
  }

  /** The executor's patches never take progress back, each leaves the status it is named for, and
      only the last ones finish a task. */
  lemma PatchRaisesProgress(t: Task, p: Patch, now: Moment)
    requires RowOk(t)
    ensures Patched(t, p, now).progress >= t.progress
    ensures p.MarkDispatched? ==> Patched(t, p, now).status == Dispatched && Patched(t, p, now).progress >= 10
    ensures p.MarkRunning? ==> Patched(t, p, now).status == InProgress && Patched(t, p, now).startedAt == now
                               && Patched(t, p, now).progress >= 30
    ensures p.NoteFallback? ==> Patched(t, p, now) == t
    ensures p.MarkStopped? ==> Patched(t, p, now).status == t.status && Patched(t, p, now).progress >= 65
    ensures p.MarkSuccess? ==> Patched(t, p, now).status == Success
    ensures p.MarkFailed? ==> Patched(t, p, now).status == if p.timeout then TimedOut else Failed
    ensures p.MarkSuccess? || p.MarkFailed? ==> Patched(t, p, now).finishedAt == now && Patched(t, p, now).progress == 100
    ensures !Terminal(t.status) ==> (Terminal(Patched(t, p, now).status) <==> p.MarkSuccess? || p.MarkFailed?)
    ensures p.MarkSuccess? || p.MarkFailed? ==>
              Patched(t, p, now).startedAt == if t.startedAt == 0 then now else t.startedAt
    ensures var u := Patched(t, p, now);
            u == t.(status := u.status, progress := u.progress, startedAt := u.startedAt, finishedAt := u.finishedAt)
  {
  }

  /** Whatever a row was read from, what is written back is in order: nothing depends on how
      stale the snapshot is. */
  lemma WrittenRowOk(rows: Rows, o: Operation, now: Moment)
    requires OperationOk(rows, o)
    ensures var t := Written(o, now);
            t.id == o.snapshot.id && t.assignee == o.snapshot.assignee && RowOk(SavedTask(rows, t))
  {
  }

  lemma ReplacedRowKeepsBoardOk(b: Board, t: Task)
    requires BoardOk(b) && RowOk(t) && (t.id in b.rows ==> t.assignee == b.rows[t.id].assignee)
    ensures BoardOk(b.(rows := b.rows[t.id := t]))
  {
  }

  lemma StartedOperationKeepsBoardOk(b: Board, op: nat, o: Operation)
    requires BoardOk(b) && OperationOk(b.rows, o)
    ensures BoardOk(b.(underWay := b.underWay[op := o]))
  {
  }

  lemma FinishedOperationKeepsBoardOk(b: Board, op: nat)
    requires BoardOk(b)
    ensures BoardOk(b.(underWay := b.underWay - {op}))
  {
  }

  lemma ClaimKeepsBoardOk(b: Board, agent: AgentId, kinds: set<string>, choice: TaskId, now: Moment)
    requires BoardOk(b) && agent != "" && IsNext(b.rows, choice, agent, kinds)
    ensures BoardOk(Apply(b, ClaimStep(agent, kinds, choice, now)))
  {
    var t := Claimed(b.rows[choice], agent, now);
    ReplacedRowKeepsBoardOk(b, t);
    assert b.rows[t.id := t][choice].assignee != "";
  }

  lemma WriteKeepsBoardOk(b: Board, op: nat, now: Moment)
    requires BoardOk(b) && op in b.underWay
    ensures BoardOk(Apply(b, WriteBack(op, now)))
  {
    WrittenRowOk(b.rows, b.underWay[op], now);
    ReplacedRowKeepsBoardOk(b, SavedTask(b.rows, Written(b.underWay[op], now)));
    FinishedOperationKeepsBoardOk(b.(rows := Save(b.rows, Written(b.underWay[op], now))), op);
  }

  lemma StepKeepsBoardOk(b: Board, s: Step)
    requires BoardOk(b)
    ensures BoardOk(Apply(b, s))
  {
    match s
    case CreateStep(id, kind, assignee, createdKey) =>
      if id != "" && id !in b.rows {
        ReplacedRowKeepsBoardOk(b, SavedTask(b.rows, NewTask(id, kind, assignee, createdKey)));
      }
    case ClaimStep(agent, kinds, choice, now) =>
      if agent != "" && IsNext(b.rows, choice, agent, kinds) {
        ClaimKeepsBoardOk(b, agent, kinds, choice, now);
      }
    case ReadForReport(op, agent, id, report) =>
      if agent != "" && id in b.rows && BelongsTo(b.rows[id], agent) {
        StartedOperationKeepsBoardOk(b, op, Reporting(b.rows[id], agent, report));
      }
    case ReadForPatch(op, id, patch) =>
      if id in b.rows && b.rows[id].assignee == "" {
        StartedOperationKeepsBoardOk(b, op, Patching(b.rows[id], patch));
      }
    case WriteBack(op, now) =>
      if op in b.underWay {
        WriteKeepsBoardOk(b, op, now);
      }
  }

  /** In every interleaving, lost updates included, every stored row is in order. */
  lemma {:induction false} RowsStayOk(b: Board, steps: seq<Step>)
    requires BoardOk(b)
    ensures BoardOk(Run(b, steps))
    decreases |steps|
  {
    if steps != [] {
      StepKeepsBoardOk(b, steps[0]);
      RowsStayOk(Apply(b, steps[0]), steps[1..]);
    }
  }

  lemma EveryStoredRowIsOk(steps: seq<Step>, id: TaskId)
    requires id in Run(EMPTY, steps).rows
    ensures RowOk(Run(EMPTY, steps).rows[id])
  {
    RowsStayOk(EMPTY, steps);
  }

  // ---- Hand-outs ----

  /** No agent task has been handed out twice, and one that is pending never was. */
  ghost predicate HandedOutOnce(b: Board) {
    forall id | id in b.rows && b.rows[id].assignee != "" ::
      b.handouts[id] <= 1 && (b.rows[id].status.Pending? ==> b.handouts[id] == 0)
  }

  /** A report under way that will make a task pending again: it says so, or it says nothing
      and read the row while it was pending. */
  predicate WillReopen(o: Operation) {
    o.Reporting? && o.snapshot.assignee != "" && ReportedStatus(o.snapshot, o.report).Pending?
  }

  predicate Reopens(b: Board, s: Step) {
    && s.WriteBack? && s.op in b.underWay && WillReopen(b.underWay[s.op])
    && b.handouts[b.underWay[s.op].snapshot.id] > 0
  }

  lemma WriteKeepsHandoutsIff(b: Board, op: nat, now: Moment)
    requires BoardOk(b) && HandedOutOnce(b) && op in b.underWay
    ensures HandedOutOnce(Apply(b, WriteBack(op, now))) <==> !Reopens(b, WriteBack(op, now))
  {
    WrittenRowOk(b.rows, b.underWay[op], now);
    var u := Apply(b, WriteBack(op, now));
    var id := b.underWay[op].snapshot.id;
    assert u.rows[id].assignee == b.rows[id].assignee;
    assert u.rows[id].assignee != "" ==> (u.rows[id].status.Pending? <==> WillReopen(b.underWay[op]));
  }

  /** Claims keep the hand-out discipline by themselves; the one step that breaks it is a write
      that makes a handed-out task pending. */
  lemma StepKeepsHandoutsIff(b: Board, s: Step)
    requires BoardOk(b) && HandedOutOnce(b)
    ensures HandedOutOnce(Apply(b, s)) <==> !Reopens(b, s)
  {
    if s.WriteBack? {
      if s.op in b.underWay {
        WriteKeepsHandoutsIff(b, s.op, s.now);
      }
    } else if s.ClaimStep? {
      if s.agent != "" && IsNext(b.rows, s.choice, s.agent, s.kinds) {
        assert b.handouts[s.choice] == 0;
      }
    } else if s.CreateStep? {
      assert s.id !in b.rows ==> b.handouts[s.id] == 0;
    }
  }

  /** A report that names a status other than pending. */
  predicate ProperStep(s: Step) {
    s.ReadForReport? ==> !s.report.status.NoStatus? && !s.report.status.Pending?
  }

  ghost predicate ReportsAreProper(b: Board) {
    forall op | op in b.underWay && b.underWay[op].Reporting? ::
      !b.underWay[op].report.status.NoStatus? && !b.underWay[op].report.status.Pending?
  }

  lemma {:induction false} ProperRunsHandOutOnce(b: Board, steps: seq<Step>)
    requires BoardOk(b) && HandedOutOnce(b) && ReportsAreProper(b) && forall s | s in steps :: ProperStep(s)
    ensures HandedOutOnce(Run(b, steps))
    decreases |steps|
  {
    if steps != [] {
      assert ProperStep(steps[0]);
      StepKeepsBoardOk(b, steps[0]);
      StepKeepsReportsProper(b, steps[0]);
      StepKeepsHandoutsIff(b, steps[0]);
      ProperRunsHandOutOnce(Apply(b, steps[0]), steps[1..]);
    }
  }

  /** Over every interleaving of claims, reports and patches in which reports carry running or
      final statuses, an agent task is handed out at most once. */
  lemma EachTaskIsHandedOutOnce(steps: seq<Step>, id: TaskId)
    requires forall s | s in steps :: ProperStep(s)
    requires id in Run(EMPTY, steps).rows && Run(EMPTY, steps).rows[id].assignee != ""
    ensures Run(EMPTY, steps).handouts[id] <= 1
  {
    ProperRunsHandOutOnce(EMPTY, steps);
  }

  lemma StepDoesNotReenter(b: Board, s: Step, id: TaskId)
    requires BoardOk(b) && ReportsAreProper(b) && id in b.rows
    requires b.rows[id].assignee != "" && !b.rows[id].status.Pending?
    ensures var u := Apply(b, s);
            id in u.rows && u.rows[id].assignee == b.rows[id].assignee && !u.rows[id].status.Pending?
  {
    if s.WriteBack? && s.op in b.underWay {
      WrittenRowOk(b.rows, b.underWay[s.op], s.now);
    }
  }

  lemma StepKeepsReportsProper(b: Board, s: Step)
    requires ReportsAreProper(b) && ProperStep(s)
    ensures ReportsAreProper(Apply(b, s))
  {
  }

  /** Pending is left for good. */
  lemma {:induction false} PendingIsNotReentered(b: Board, steps: seq<Step>, id: TaskId)
    requires BoardOk(b) && ReportsAreProper(b) && forall s | s in steps :: ProperStep(s)
    requires id in b.rows && b.rows[id].assignee != "" && !b.rows[id].status.Pending?
    ensures var u := Run(b, steps);
            id in u.rows && !u.rows[id].status.Pending?
    decreases |steps|
  {
    if steps != [] {
      assert ProperStep(steps[0]);
      StepKeepsBoardOk(b, steps[0]);
      StepKeepsReportsProper(b, steps[0]);
      StepDoesNotReenter(b, steps[0], id);
      PendingIsNotReentered(Apply(b, steps[0]), steps[1..], id);
    }
  }

  lemma LoneClaim(id: TaskId, t: Task, agent: AgentId, handouts: multiset<TaskId>, now: Moment)
    requires agent != "" && t.status.Pending? && t.assignee == agent
    ensures Apply(Board(map[id := t], map[], handouts), ClaimStep(agent, {}, id, now))
         == Board(map[id := Claimed(t, agent, now)], map[], handouts + multiset{id})
  {
  }

  lemma LoneReport(id: TaskId, t: Task, agent: AgentId, r: TaskReport, handouts: multiset<TaskId>, now: Moment)
    requires agent != "" && t.id == id && t.assignee == agent
    ensures Apply(Apply(Board(map[id := t], map[], handouts), ReadForReport(0, agent, id, r)), WriteBack(0, now))
         == Board(map[id := SavedTask(map[id := t], Reported(t, agent, r, now))], map[], handouts)
  {
    assert map[0 := Reporting(t, agent, r)] - {0} == map[];
  }

  /** Without that condition it fails: the agent that holds a task reports it pending and is
      handed it again. */
  lemma PendingReportHandsOutAgain(agent: AgentId, id: TaskId, kind: string, r: TaskReport, now: Moment)
    requires agent != "" && id != "" && r.status.Pending?
    ensures var claim := ClaimStep(agent, {}, id, now);
            Run(EMPTY, [CreateStep(id, kind, agent, 0), claim, ReadForReport(0, agent, id, r), WriteBack(0, now), claim])
            .handouts[id] == 2
  {
    var claim, read, write := ClaimStep(agent, {}, id, now), ReadForReport(0, agent, id, r), WriteBack(0, now);
    var t1 := NewTask(id, kind, agent, 0);
    var t2 := Claimed(t1, agent, now);
    var t3 := SavedTask(map[id := t2], Reported(t2, agent, r, now));
    var b1 := Board(map[id := t1], map[], multiset{});
    var b2 := Board(map[id := t2], map[], multiset{id});
    var b3 := Apply(b2, read);
    LoneClaim(id, t1, agent, multiset{}, now);
    LoneReport(id, t2, agent, r, multiset{id}, now);
    LoneClaim(id, t3, agent, multiset{id}, now);
    RunOne(EMPTY, CreateStep(id, kind, agent, 0), [claim, read, write, claim], b1);
    RunOne(b1, claim, [read, write, claim], b2);
    RunOne(b2, read, [write, claim], b3);
    RunOne(b3, write, [claim], Board(map[id := t3], map[], multiset{id}));
    RunOne(Board(map[id := t3], map[], multiset{id}), claim, [],
           Board(map[id := Claimed(t3, agent, now)], map[], multiset{id} + multiset{id}));
  }

  lemma RunOne(b: Board, s: Step, rest: seq<Step>, after: Board)
    requires Apply(b, s) == after
    ensures Run(b, [s] + rest) == Run(after, rest)
  {
    assert ([s] + rest)[1..] == rest;
  }

  // ---- Who says that a task is done ----

  /** A final status somebody gave a task: an agent's report, or a patch of the executor. */
  function Tells(s: Step): set<(TaskId, Status)> {
    match s
    case ReadForReport(_, _, id, report) => {(id, report.status)}
    case ReadForPatch(_, id, patch) =>
      (match patch
       case MarkSuccess => {(id, Success)}
       case MarkFailed(timeout) => {(id, if timeout then TimedOut else Failed)}
       case _ => {})
    case _ => {}
  }

  function AllTell(steps: seq<Step>): set<(TaskId, Status)> {
    if steps == [] then {} else Tells(steps[0]) + AllTell(steps[1..])
  }

  /** A final status was given to the task by somebody. */
  predicate Vouched(told: set<(TaskId, Status)>, id: TaskId, s: Status) {
    Terminal(s) ==> (id, s) in told
  }

  predicate OperationVouched(told: set<(TaskId, Status)>, o: Operation) {
    && Vouched(told, o.snapshot.id, o.snapshot.status)
    && match o
       case Reporting(snapshot, _, report) => Vouched(told, snapshot.id, report.status)
       case Patching(snapshot, patch) =>
         && (patch.MarkSuccess? ==> (snapshot.id, Success) in told)
         && (patch.MarkFailed? ==> (snapshot.id, if patch.timeout then TimedOut else Failed) in told)
  }

  ghost predicate BoardVouched(told: set<(TaskId, Status)>, b: Board) {
    && (forall id | id in b.rows :: b.rows[id].id == id && Vouched(told, id, b.rows[id].status))
    && (forall op | op in b.underWay :: OperationVouched(told, b.underWay[op]))
  }

  /** A written row has no final status that neither its operation nor its snapshot had. */
  lemma WriteIsVouched(told: set<(TaskId, Status)>, o: Operation, rows: Rows, now: Moment)
    requires OperationVouched(told, o)
    ensures var t := SavedTask(rows, Written(o, now));
            t.id == o.snapshot.id && Vouched(told, t.id, t.status)
  {
  }

  lemma StepKeepsVouched(told: set<(TaskId, Status)>, b: Board, s: Step)
    requires BoardVouched(told, b)
    ensures BoardVouched(told + Tells(s), Apply(b, s))
  {
    if s.WriteBack? && s.op in b.underWay {
      WriteIsVouched(told, b.underWay[s.op], b.rows, s.now);
    }
  }

  lemma {:induction false} RunKeepsVouched(told: set<(TaskId, Status)>, b: Board, steps: seq<Step>)
    requires BoardVouched(told, b)
    ensures BoardVouched(told + AllTell(steps), Run(b, steps))
    decreases |steps|
  {
    if steps != [] {
      StepKeepsVouched(told, b, steps[0]);
      RunKeepsVouched(told + Tells(steps[0]), Apply(b, steps[0]), steps[1..]);
      assert told + Tells(steps[0]) + AllTell(steps[1..]) == told + AllTell(steps);
    }
  }

  /** Over every interleaving: a task is stored as a success only if a report said so of it or the
      executor marked it one, and likewise for every other final status. */
  lemma FinalStatusWasGiven(steps: seq<Step>, id: TaskId)
    requires id in Run(EMPTY, steps).rows && Terminal(Run(EMPTY, steps).rows[id].status)
    ensures exists s :: s in steps && (id, Run(EMPTY, steps).rows[id].status) in Tells(s)
  {
    RunKeepsVouched({}, EMPTY, steps);
    assert {} + AllTell(steps) == AllTell(steps);
    ToldBySomebody(steps, (id, Run(EMPTY, steps).rows[id].status));
  }

  lemma {:induction false} ToldBySomebody(steps: seq<Step>, x: (TaskId, Status))
    requires x in AllTell(steps)
    ensures exists s :: s in steps && x in Tells(s)
  {
    if x !in Tells(steps[0]) {
      ToldBySomebody(steps[1..], x);
      var s :| s in steps[1..] && x in Tells(s);
      assert s in steps;
    } else {
      assert steps[0] in steps;
    }
  }

  /** And the write of a report leaves exactly what it says, on whatever row is there by then. */
  lemma WriteRecords(b: Board, op: nat, now: Moment)
    requires op in b.underWay && b.underWay[op].Reporting?
    ensures var o := b.underWay[op];
            var after := Apply(b, WriteBack(op, now)).rows;
            && o.snapshot.id in after
            && Records(o.snapshot, after[o.snapshot.id].(createdKey := o.snapshot.createdKey), o.agent, o.report, now)
  {
    var o := b.underWay[op];
    ReportRecords(b.rows, o.snapshot, o.agent, o.report, now);
  }
}
