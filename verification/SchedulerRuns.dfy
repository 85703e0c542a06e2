/** Actions on models under the scheduler: which containers can run at the same time when
    actions of different nodes interleave. An action checks the scheduler when it begins, its
    call to the runtime takes effect later, and it records the outcome later still; the lock it
    holds meanwhile is its node's. */
module SchedulerRuns {
  import opened Scheduling

  datatype Action = Load | Unload | Start | Stop

  /** The registry's opinion of a model, which may be out of date. */
  datatype State = Unknown | Stopped | Running | Loaded | Busy | Errored | OtherState

  /** Everything fixed during a run: policies, the node of every registered model, and which
      models run in containers. */
  datatype Config = Config(policies: Policies, nodes: map<ModelId, string>, containers: set<ModelId>)

  /** An action under way. `succeeded` is what its runtime call answered, once it has. */
  datatype Flight = Flight(action: Action, model: ModelId, acted: bool, succeeded: bool)

  /** `active` is the truth about the runtimes: containers that run, and models of other
      backends that are loaded. */
  datatype Fleet = Fleet(holders: map<Group, ModelId>, active: set<ModelId>, busy: map<string, Flight>)

  datatype Answer = Succeeded | FailedUnchanged | FailedStopped

  datatype Step =
    | Begin(action: Action, model: ModelId, seen: State)
    | Act(lock: string, answer: Answer)
    | Finish(lock: string)
    | Refresh(model: ModelId)

  function LockOf(cfg: Config, m: ModelId): string
    requires m in cfg.nodes
  {
    if cfg.nodes[m] == "" then "unknown" else cfg.nodes[m]
  }

  predicate IsLoaded(s: State) {
    s.Loaded? || s.Running? || s.Busy?
  }

  predicate Allowed(a: Action, container: bool, s: State) {
    if container then
      match a
      case Load => s.Stopped? || s.Unknown? || s.Errored?
      case Unload => IsLoaded(s)
      case Start => !s.OtherState?
      case Stop => s.Running? || s.Busy?
    else
      match a
      case Load => !IsLoaded(s)
      case Start => !IsLoaded(s)
      case Unload => IsLoaded(s)
      case Stop => IsLoaded(s)
  }

  /** In every state the registry knows, a container can either be loaded or unloaded, and always
      be started; stopping needs a state that can be unloaded too. Other backends can start and
      load exactly when they cannot stop and unload. */
  lemma AllowedMeaning(s: State)
    ensures !s.OtherState? ==> (Allowed(Load, true, s) <==> !Allowed(Unload, true, s)) && Allowed(Start, true, s)
    ensures Allowed(Stop, true, s) ==> Allowed(Unload, true, s)
    ensures Allowed(Unload, true, s) && !Allowed(Stop, true, s) <==> s == Loaded
    ensures s.OtherState? ==> forall a :: !Allowed(a, true, s)
    ensures Allowed(Load, false, s) == Allowed(Start, false, s)
    ensures Allowed(Stop, false, s) == Allowed(Unload, false, s) == !Allowed(Load, false, s)
  {
  }

  /** A registry state that claims to know, and is right: a container runs while running or busy,
      a model of another backend is loaded in either of those states too. */
  predicate TellsTruth(s: State, container: bool, active: bool) {
    match s
    case Running => active
    case Busy => active
    case Loaded => active == !container
    case Stopped => !active
    case _ => false
  }

  /** In a state that tells the truth, what is active can be stopped and unloaded and cannot be
      loaded, and what is not cannot be stopped. A container can be started whatever it does, and
      is unloaded also when it only exists; other backends are loaded and started exactly when
      they are not active. */
  lemma AllowedInTruth(s: State, container: bool, active: bool)
    requires TellsTruth(s, container, active)
    ensures Allowed(Stop, container, s) <==> active
    ensures active ==> Allowed(Unload, container, s) && !Allowed(Load, container, s)
    ensures container ==> Allowed(Start, container, s)
    ensures container && !active ==> (Allowed(Load, container, s) <==> s == Stopped)
                                     && (Allowed(Unload, container, s) <==> s == Loaded)
    ensures !container && !active ==> Allowed(Load, container, s) && Allowed(Start, container, s)
                                      && !Allowed(Unload, container, s)
    ensures !container && active ==> !Allowed(Start, container, s)
  {
  }

  /** Where the registry does not know, a model can be loaded and started, not stopped or unloaded;
      a state of no meaning lets nothing be done to a container. */
  lemma AllowedInDoubt(s: State, container: bool)
    requires s.Unknown? || s.Errored? || s.OtherState?
    ensures !Allowed(Stop, container, s) && !Allowed(Unload, container, s)
    ensures Allowed(Load, container, s) == Allowed(Start, container, s) == !(container && s == OtherState)
  {
  }

  /** An action whose success leaves its model active; the load of a container leaves it stopped. */
  predicate Raises(cfg: Config, a: Action, m: ModelId) {
    a.Start? || (a.Load? && m !in cfg.containers)
  }

  predicate NeedsPermission(a: Action) {
    a.Load? || a.Start?
  }

  function ActiveAfter(cfg: Config, f: Fleet, flight: Flight, answer: Answer): set<ModelId> {
    match answer
    case Succeeded =>
      if Raises(cfg, flight.action, flight.model) then f.active + {flight.model} else f.active - {flight.model}
    case FailedUnchanged => f.active
    case FailedStopped => f.active - {flight.model}
  }

  function HoldersAfter(cfg: Config, f: Fleet, flight: Flight): map<Group, ModelId> {
    if !flight.succeeded then f.holders
    else if Raises(cfg, flight.action, flight.model) then Marked(cfg.policies, f.holders, flight.model)
    else Unmarked(cfg.policies, f.holders, flight.model)
  }

  function Apply(cfg: Config, f: Fleet, s: Step): Fleet {
    match s
    case Begin(a, m, seen) =>
      if m !in cfg.nodes || LockOf(cfg, m) in f.busy || !Allowed(a, m in cfg.containers, seen)
         || (NeedsPermission(a) && !MayRun(cfg.policies, f.holders, m))
      then f
      else f.(busy := f.busy[LockOf(cfg, m) := Flight(a, m, false, false)])
    case Act(lock, answer) =>
      if lock !in f.busy || f.busy[lock].acted then f
      else
        var flight := f.busy[lock];
        f.(active := ActiveAfter(cfg, f, flight, answer),
           busy := f.busy[lock := flight.(acted := true, succeeded := answer.Succeeded?)])
    case Finish(lock) =>
      if lock !in f.busy || !f.busy[lock].acted then f
      else f.(holders := HoldersAfter(cfg, f, f.busy[lock]), busy := f.busy - {lock})
    case Refresh(m) =>
      f.(holders := if m in f.active then Marked(cfg.policies, f.holders, m) else Unmarked(cfg.policies, f.holders, m))
  }

  function Run(cfg: Config, f: Fleet, steps: seq<Step>): Fleet
    decreases |steps|
  {
    if steps == [] then f else Run(cfg, Apply(cfg, f, steps[0]), steps[1..])
  }

  const IDLE := Fleet(map[], {}, map[])

  predicate SameGroup(cfg: Config, a: ModelId, b: ModelId) {
    GroupOf(cfg.policies, a) != "" && GroupOf(cfg.policies, a) == GroupOf(cfg.policies, b)
  }

  /** No two models of one group are active. */
  ghost predicate Exclusive(cfg: Config, f: Fleet) {
    forall a, b | a in f.active && b in f.active && SameGroup(cfg, a, b) :: a == b
  }

  /** The models of every group share their lock. */
  ghost predicate NodeLocal(cfg: Config) {
    forall a, b | a in cfg.nodes && b in cfg.nodes && SameGroup(cfg, a, b) :: LockOf(cfg, a) == LockOf(cfg, b)
  }

  /** An active model is its group's holder, or about to be recorded as such. */
  predicate Recorded(cfg: Config, f: Fleet, m: ModelId) {
    || Holds(f.holders, GroupOf(cfg.policies, m), m)
    || (m in cfg.nodes && LockOf(cfg, m) in f.busy
        && var flight := f.busy[LockOf(cfg, m)];
           flight.model == m && flight.acted && flight.succeeded && Raises(cfg, flight.action, m))
  }

  predicate FlightOk(cfg: Config, f: Fleet, lock: string)
    requires lock in f.busy
  {
    var flight := f.busy[lock];
    && flight.model in cfg.nodes && LockOf(cfg, flight.model) == lock
    && (NeedsPermission(flight.action) ==>
          forall a | a in f.active && SameGroup(cfg, a, flight.model) :: a == flight.model)
    && (flight.acted && flight.succeeded && !Raises(cfg, flight.action, flight.model) ==> flight.model !in f.active)
  }

  ghost predicate FleetOk(cfg: Config, f: Fleet) {
    && (forall a | a in f.active :: a in cfg.nodes && (GroupOf(cfg.policies, a) != "" ==> Recorded(cfg, f, a)))
    && (forall lock | lock in f.busy :: FlightOk(cfg, f, lock))
  }

  lemma FleetOkIsExclusive(cfg: Config, f: Fleet)
    requires FleetOk(cfg, f) && NodeLocal(cfg)
    ensures Exclusive(cfg, f)
  {
    forall a, b | a in f.active && b in f.active && SameGroup(cfg, a, b) ensures a == b {
      assert Recorded(cfg, f, a) && Recorded(cfg, f, b);
      assert LockOf(cfg, a) == LockOf(cfg, b);
      if LockOf(cfg, a) in f.busy {
        assert FlightOk(cfg, f, LockOf(cfg, a));
      }
    }
  }

  lemma BeginKeepsOk(cfg: Config, f: Fleet, a: Action, m: ModelId, seen: State)
    requires FleetOk(cfg, f) && NodeLocal(cfg)
    ensures FleetOk(cfg, Apply(cfg, f, Begin(a, m, seen)))
  {
    var u := Apply(cfg, f, Begin(a, m, seen));
    if u != f {
      forall o | o in u.active && GroupOf(cfg.policies, o) != "" ensures Recorded(cfg, u, o) {
        assert Recorded(cfg, f, o);
      }
      forall lock | lock in u.busy ensures FlightOk(cfg, u, lock) {
        if lock == LockOf(cfg, m) {
          forall o | o in f.active && SameGroup(cfg, o, m) && NeedsPermission(a) ensures o == m {
            assert Recorded(cfg, f, o) && LockOf(cfg, o) == LockOf(cfg, m);
          }
        } else {
          assert FlightOk(cfg, f, lock);
        }
      }
    }
  }

  lemma ActKeepsOk(cfg: Config, f: Fleet, lock: string, answer: Answer)
    requires FleetOk(cfg, f) && NodeLocal(cfg)
    ensures FleetOk(cfg, Apply(cfg, f, Act(lock, answer)))
  {
    var u := Apply(cfg, f, Act(lock, answer));
    if u != f {
      var m := f.busy[lock].model;
      assert FlightOk(cfg, f, lock);
      forall o | o in u.active ensures o in cfg.nodes && (GroupOf(cfg.policies, o) != "" ==> Recorded(cfg, u, o)) {
        if o != m && GroupOf(cfg.policies, o) != "" {
          assert Recorded(cfg, f, o);
        }
      }
      forall other | other in u.busy ensures FlightOk(cfg, u, other) {
        assert FlightOk(cfg, f, other);
      }
    }
  }

  lemma FinishKeepsOk(cfg: Config, f: Fleet, lock: string)
    requires FleetOk(cfg, f) && NodeLocal(cfg)
    ensures FleetOk(cfg, Apply(cfg, f, Finish(lock)))
  {
    var u := Apply(cfg, f, Finish(lock));
    if u != f {
      var m := f.busy[lock].model;
      assert FlightOk(cfg, f, lock);
      forall o | o in u.active && GroupOf(cfg.policies, o) != "" ensures Recorded(cfg, u, o) {
        assert Recorded(cfg, f, o);
      }
      forall other | other in u.busy ensures FlightOk(cfg, u, other) {
        assert FlightOk(cfg, f, other);
      }
    }
  }

  lemma RefreshKeepsOk(cfg: Config, f: Fleet, m: ModelId)
    requires FleetOk(cfg, f) && NodeLocal(cfg)
    ensures FleetOk(cfg, Apply(cfg, f, Refresh(m)))
  {
    var u := Apply(cfg, f, Refresh(m));
    FleetOkIsExclusive(cfg, f);
    forall o | o in u.active && GroupOf(cfg.policies, o) != "" ensures Recorded(cfg, u, o) {
      assert Recorded(cfg, f, o);
    }
    forall lock | lock in u.busy ensures FlightOk(cfg, u, lock) {
      assert FlightOk(cfg, f, lock);
    }
  }

  lemma StepKeepsOk(cfg: Config, f: Fleet, s: Step)
    requires FleetOk(cfg, f) && NodeLocal(cfg)
    ensures FleetOk(cfg, Apply(cfg, f, s))
  {
    match s
    case Begin(a, m, seen) => BeginKeepsOk(cfg, f, a, m, seen);
    case Act(lock, answer) => ActKeepsOk(cfg, f, lock, answer);
    case Finish(lock) => FinishKeepsOk(cfg, f, lock);
    case Refresh(m) => RefreshKeepsOk(cfg, f, m);
  }

  lemma {:induction false} RunKeepsOk(cfg: Config, f: Fleet, steps: seq<Step>)
    requires FleetOk(cfg, f) && NodeLocal(cfg)
    ensures FleetOk(cfg, Run(cfg, f, steps))
    decreases |steps|
  {
    if steps != [] {
      StepKeepsOk(cfg, f, steps[0]);
      RunKeepsOk(cfg, Apply(cfg, f, steps[0]), steps[1..]);
    }
  }

  /** With groups that do not span nodes, once no action is under way every active model with a
      group is its group's holder. */
  lemma ActiveMeansHolder(cfg: Config, steps: seq<Step>, m: ModelId)
    requires NodeLocal(cfg) && Run(cfg, IDLE, steps).busy == map[]
    requires m in Run(cfg, IDLE, steps).active && GroupOf(cfg.policies, m) != ""
    ensures Holds(Run(cfg, IDLE, steps).holders, GroupOf(cfg.policies, m), m)
  {
    RunKeepsOk(cfg, IDLE, steps);
    assert Recorded(cfg, Run(cfg, IDLE, steps), m);
  }

  // ---- Groups that span nodes ----

  function RaceSteps(cfg: Config, a: ModelId, b: ModelId): seq<Step>
    requires a in cfg.nodes && b in cfg.nodes
  {
    [Begin(Start, a, Stopped), Begin(Start, b, Stopped), Act(LockOf(cfg, a), Succeeded), Act(LockOf(cfg, b), Succeeded)]
  }

  /** Two starts on two nodes both pass the check before either is recorded. */
  lemma CrossNodeRace(cfg: Config, a: ModelId, b: ModelId)
    requires a in cfg.nodes && b in cfg.nodes && SameGroup(cfg, a, b) && LockOf(cfg, a) != LockOf(cfg, b)
    ensures Run(cfg, IDLE, RaceSteps(cfg, a, b)).active == {a, b}
  {
    var la, lb := LockOf(cfg, a), LockOf(cfg, b);
    var s := RaceSteps(cfg, a, b);
    var f1 := Apply(cfg, IDLE, s[0]);
    var f2 := Apply(cfg, f1, s[1]);
    var f3 := Apply(cfg, f2, s[2]);
    var f4 := Apply(cfg, f3, s[3]);
    assert f2.busy == map[la := Flight(Start, a, false, false), lb := Flight(Start, b, false, false)];
    assert f4.active == {a, b};
    assert s[3..][1..] == [] && s[2..][1..] == s[3..] && s[1..][1..] == s[2..];
    assert Run(cfg, f3, s[3..]) == f4;
    assert Run(cfg, f2, s[2..]) == f4;
    assert Run(cfg, f1, s[1..]) == f4;
  }

  /** The scheduler keeps every group exclusive, over every run and at every moment, exactly when
      no group spans two nodes. */
  lemma ExclusiveIffNodeLocal(cfg: Config)
    ensures (forall steps :: Exclusive(cfg, Run(cfg, IDLE, steps))) <==> NodeLocal(cfg)
  {
    if NodeLocal(cfg) {
      forall steps ensures Exclusive(cfg, Run(cfg, IDLE, steps)) {
        RunKeepsOk(cfg, IDLE, steps);
        FleetOkIsExclusive(cfg, Run(cfg, IDLE, steps));
      }
    } else {
      var a, b :| a in cfg.nodes && b in cfg.nodes && SameGroup(cfg, a, b) && LockOf(cfg, a) != LockOf(cfg, b);
      CrossNodeRace(cfg, a, b);
      assert !Exclusive(cfg, Run(cfg, IDLE, RaceSteps(cfg, a, b)));
    }
  }
}
