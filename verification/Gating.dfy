/** The gating decision and the lifecycle plan it leads to. */
module Gating {
  import opened Wrappers
  import opened RuntimeTypes
  import opened Conflict

  predicate SameKey(a: Reason, b: Reason) {
    a.code == b.code && a.related == b.related
  }

  predicate Keyed(kept: seq<Reason>, r: Reason) {
    exists k :: k in kept && SameKey(k, r)
  }

  /** The guarded append of the gating fold: one reason per (code, instance), the first wins. */
  function Keep(kept: seq<Reason>, r: Reason): seq<Reason> {
    if r.code == NoCode || Keyed(kept, r) then kept else kept + [r]
  }

  function KeepAll(kept: seq<Reason>, more: seq<Reason>): seq<Reason>
    decreases |more|
  {
    if more == [] then kept else Keep(KeepAll(kept, more[..|more| - 1]), more[|more| - 1])
  }

  function GatingSummaryOf(
    precheck: PrecheckSummary, conflict: ConflictSummary, target: Action, now: Time): GatingSummary
  {
    var kept := KeepAll(KeepAll([], precheck.reasons), conflict.reasons);
    var refused := IsLoadLike(target) && (AnyBlocking(kept) || precheck.gating || conflict.blocking);
    var status :=
      if !refused then GatingAllowed
      else if exists r :: r in kept && r.code == KindMutex then GatingDeferred
      else GatingBlocked;
    GatingSummary(status, !refused, kept, now, FromController, target)
  }

  /** One of the fold's two loops: reasons are kept and a kept blocking one refuses a load. */
  method KeepReasons(kept: seq<Reason>, more: seq<Reason>, allowed: bool, loadLike: bool)
    returns (out: seq<Reason>, still: bool)
    requires allowed == !(loadLike && AnyBlocking(kept))
    ensures out == KeepAll(kept, more)
    ensures still == !(loadLike && AnyBlocking(out))
  {
    out, still := kept, allowed;
    for k := 0 to |more|
      invariant out == KeepAll(kept, more[..k])
      invariant still == !(loadLike && AnyBlocking(out))
    {
      var r := more[k];
      assert more[..k + 1][..k] == more[..k];
      if r.code != NoCode && !(exists e :: e in out && SameKey(e, r)) {
        ghost var before := out;
        out := out + [r];
        assert r in out && forall e | e in before :: e in out;
        if r.blocking && loadLike {
          still := false;
        }
      }
    }
    assert more[..|more|] == more;
  }

  method BuildRuntimeGatingSummary(
    precheck: PrecheckSummary, conflict: ConflictSummary, target: Action, now: Time)
    returns (gating: GatingSummary)
    ensures gating == GatingSummaryOf(precheck, conflict, target, now)
  {
    var loadLike := IsLoadLike(target);
    var reasons: seq<Reason>, allowed := [], true;
    var status := GatingAllowed;
    reasons, allowed := KeepReasons(reasons, precheck.reasons, allowed, loadLike);
    reasons, allowed := KeepReasons(reasons, conflict.reasons, allowed, loadLike);
    if precheck.gating && loadLike {
      allowed := false;
      status := GatingBlocked;
    }
    if conflict.blocking && loadLike {
      allowed := false;
    }
    if !allowed {
      if exists r :: r in reasons && r.code == KindMutex {
        status := GatingDeferred;
      } else {
        status := GatingBlocked;
      }
    }
    gating := GatingSummary(status, allowed, reasons, now, FromController, target);
  }

  /** A reason survives exactly when it has a code, is not already kept, and no earlier reason
      has its key. */
  ghost predicate FirstOfItsKey(kept: seq<Reason>, more: seq<Reason>, k: nat)
    requires k < |more|
  {
    && more[k].code != NoCode
    && !Keyed(kept, more[k])
    && forall j | 0 <= j < k :: !SameKey(more[j], more[k])
  }

  lemma {:induction false} KeptIff(kept: seq<Reason>, more: seq<Reason>, r: Reason)
    ensures r in KeepAll(kept, more)
       <==> r in kept || exists k: nat :: k < |more| && more[k] == r && FirstOfItsKey(kept, more, k)
  {
    if more != [] {
      var n := |more| - 1;
      var front, last := more[..n], more[n];
      KeptIff(kept, front, r);
      if last.code != NoCode {
        KeyedIff(kept, front, last);
      }
      if k: nat :| k < n && more[k] == r && FirstOfItsKey(kept, more, k) {
        assert front[k] == r && FirstOfItsKey(kept, front, k);
      }
      if k: nat :| k < n && front[k] == r && FirstOfItsKey(kept, front, k) {
        assert more[k] == r && FirstOfItsKey(kept, more, k);
      }
      if last == r && last.code != NoCode && !Keyed(KeepAll(kept, front), last) {
        assert FirstOfItsKey(kept, more, n);
      }
    }
  }

  /** The keys present after the fold are those of all its inputs that carry a code. */
  lemma {:induction false} KeyedIff(kept: seq<Reason>, more: seq<Reason>, r: Reason)
    requires r.code != NoCode
    ensures Keyed(KeepAll(kept, more), r) <==> Keyed(kept, r) || exists k: nat :: k < |more| && SameKey(more[k], r)
  {
    if more != [] {
      var n := |more| - 1;
      var front, last := more[..n], more[n];
      KeyedIff(kept, front, r);
      KeyedKeep(KeepAll(kept, front), last, r);
      if k: nat :| k < |more| && SameKey(more[k], r) && k < n {
        assert SameKey(front[k], r);
      }
    }
  }

  lemma KeyedKeep(kept: seq<Reason>, last: Reason, r: Reason)
    requires r.code != NoCode
    ensures Keyed(Keep(kept, last), r) <==> Keyed(kept, r) || SameKey(last, r)
  {
    if Keyed(kept, last) {
      var k :| k in kept && SameKey(k, last);
    } else if last.code != NoCode {
      assert forall k :: k in kept + [last] <==> k in kept || k == last;
    }
  }

  ghost predicate DistinctKeys(rs: seq<Reason>) {
    forall j, k | 0 <= j < k < |rs| :: !SameKey(rs[j], rs[k])
  }

  lemma {:induction false} KeptKeysAreDistinct(kept: seq<Reason>, more: seq<Reason>)
    requires DistinctKeys(kept)
    ensures DistinctKeys(KeepAll(kept, more))
  {
    if more != [] {
      KeptKeysAreDistinct(kept, more[..|more| - 1]);
    }
  }

  /** What the agent guarantees of its reasons. */
  predicate BlockingReasonsGate(precheck: PrecheckSummary) {
    AnyBlocking(precheck.reasons) ==> precheck.gating
  }

  predicate BlockingIsExact(conflict: ConflictSummary) {
    conflict.blocking == AnyBlocking(conflict.reasons)
  }

  /** The fold equals its declarative meaning: a load is refused exactly when the precheck gates
      or some conflict blocks, and nothing else is ever refused. The kept reasons have pairwise
      distinct keys. */
  lemma GatingMeaning(precheck: PrecheckSummary, conflict: ConflictSummary, target: Action, now: Time)
    requires BlockingReasonsGate(precheck) && BlockingIsExact(conflict)
    ensures var g := GatingSummaryOf(precheck, conflict, target, now);
            && (g.allowed <==> !(IsLoadLike(target) && (precheck.gating || AnyBlocking(conflict.reasons))))
            && DistinctKeys(g.reasons)
  {
    var first := KeepAll([], precheck.reasons);
    var g := GatingSummaryOf(precheck, conflict, target, now);
    KeptKeysAreDistinct([], precheck.reasons);
    KeptKeysAreDistinct(first, conflict.reasons);
    if AnyBlocking(g.reasons) {
      var r :| r in g.reasons && r.blocking;
      KeptIff(first, conflict.reasons, r);
      KeptIff([], precheck.reasons, r);
    }
  }

  /** Without the agent's guarantee: a blocking precheck reason still refuses a load, but only
      when no earlier precheck reason has its key. */
  lemma GatingMeaningForAnyPrecheck(precheck: PrecheckSummary, conflict: ConflictSummary, target: Action, now: Time)
    requires BlockingIsExact(conflict)
    ensures GatingSummaryOf(precheck, conflict, target, now).allowed
       <==> !(IsLoadLike(target)
              && (precheck.gating || conflict.blocking
                  || exists k: nat :: k < |precheck.reasons| && precheck.reasons[k].blocking
                                      && FirstOfItsKey([], precheck.reasons, k)))
  {
    var first := KeepAll([], precheck.reasons);
    var kept := KeepAll(first, conflict.reasons);
    forall r | r in kept && r.blocking
      ensures conflict.blocking || exists k: nat :: k < |precheck.reasons| && precheck.reasons[k].blocking
                                                   && FirstOfItsKey([], precheck.reasons, k)
    {
      KeptIff(first, conflict.reasons, r);
      KeptIff([], precheck.reasons, r);
    }
    forall k: nat | k < |precheck.reasons| && precheck.reasons[k].blocking && FirstOfItsKey([], precheck.reasons, k)
      ensures AnyBlocking(kept)
    {
      var r := precheck.reasons[k];
      KeptIff([], precheck.reasons, r);
      KeptIff(first, conflict.reasons, r);
    }
  }

  // ---- Lifecycle plan ----

  function ReleaseTargetsOf(reasons: seq<Reason>): seq<InstanceId> {
    if reasons == [] then []
    else
      var last := reasons[|reasons| - 1];
      ReleaseTargetsOf(reasons[..|reasons| - 1])
      + (if last.code == KindMutex && last.related != "" then [last.related] else [])
  }

  function BlockingCodes(reasons: seq<Reason>): seq<Code> {
    if reasons == [] then []
    else
      var last := reasons[|reasons| - 1];
      BlockingCodes(reasons[..|reasons| - 1]) + (if last.blocking && last.code != NoCode then [last.code] else [])
  }

  function NormalizePlannedAction(a: Action): Action {
    match a
    case LoadStart => Load
    case ReleaseSlot => Unload
    case _ => a
  }

  function RequestedTask(a: Action): (Option<RuntimeTaskType>, PlanMessage) {
    if a.Load? || a.LoadStart? || a.Start? then (Some(RuntimeStart), PlannedToStart)
    else if a.Unload? || a.Stop? then (Some(RuntimeStop), PlannedToStop)
    else (None, PlannedOther)
  }

  function PlanOf(gating: GatingSummary, conflict: ConflictSummary, target: Action, now: Time): Plan {
    var codes := Codes(gating.reasons);
    if target.NoAction? then Plan(NoAction, Completed, NoTransition, codes, [], [], None, now)
    else
      var action := NormalizePlannedAction(target);
      if !gating.allowed then
        var targets := ReleaseTargetsOf(conflict.reasons);
        var deferred := gating.status.GatingDeferred? && targets != [];
        Plan(action, if deferred then Deferred else PlanBlocked,
             if deferred then WaitingForRelease else BlockedByGating,
             codes, BlockingCodes(gating.reasons), targets, None, now)
      else
        var (task, message) := RequestedTask(action);
        Plan(action, Planned, message, codes, [], [], task, now)
  }

  lemma {:induction false} ReleaseTargetIff(reasons: seq<Reason>, id: InstanceId)
    ensures id in ReleaseTargetsOf(reasons) <==> id != "" && MentionsMutex(reasons, id)
  {
    if reasons != [] {
      var front, last := reasons[..|reasons| - 1], reasons[|reasons| - 1];
      ReleaseTargetIff(front, id);
      MentionsMutexConcat(front, [last], id);
      assert reasons == front + [last];
      assert last in [last];
    }
  }

  /** A plan names for release exactly the instances of slot conflicts, and only if it is refused. */
  lemma PlanReleasesIff(precheck: PrecheckSummary, conflict: ConflictSummary, target: Action, now: Time, id: InstanceId)
    ensures var gating := GatingSummaryOf(precheck, conflict, target, now);
            id in PlanOf(gating, conflict, target, now).releaseTargets
            <==> !gating.allowed && !target.NoAction? && id != "" && MentionsMutex(conflict.reasons, id)
  {
    ReleaseTargetIff(conflict.reasons, id);
  }

  lemma PlanRequestFollows(gating: GatingSummary, conflict: ConflictSummary, target: Action, now: Time)
    ensures
      var plan := PlanOf(gating, conflict, target, now);
      && (plan.requested == Some(RuntimeStart) <==> plan.status == Planned && (plan.action == Load || plan.action == Start))
      && (plan.requested == Some(RuntimeStop) <==> plan.status == Planned && (plan.action == Unload || plan.action == Stop))
      && (IsLoadLike(plan.action) <==> IsLoadLike(target))
  {
  }

  /** Plan classification is total and exact, whatever the reasons: completed without a target,
      planned when allowed, deferred when refused with someone to release, blocked when refused
      with nobody to release. Stop and unload are never refused, so they release nobody. Only a
      planned load or unload asks for a task, and for the task of its kind. */
  lemma PlanClassification(precheck: PrecheckSummary, conflict: ConflictSummary, target: Action, now: Time)
    ensures
      var gating := GatingSummaryOf(precheck, conflict, target, now);
      var plan := PlanOf(gating, conflict, target, now);
      var refused := !gating.allowed && !target.NoAction?;
      && (plan.status == Completed <==> target == NoAction)
      && (plan.status == Planned <==> target != NoAction && gating.allowed)
      && (plan.status == Deferred <==> refused && exists id :: id != "" && MentionsMutex(conflict.reasons, id))
      && (plan.status == PlanBlocked <==> refused && !exists id :: id != "" && MentionsMutex(conflict.reasons, id))
      && (!IsLoadLike(target) ==> !refused)
      && (plan.releaseTargets != [] ==> refused && plan.status == Deferred)
      && (refused ==> forall id :: id in plan.releaseTargets <==> id != "" && MentionsMutex(conflict.reasons, id))
      && (plan.requested == Some(RuntimeStart) <==> plan.status == Planned && (plan.action == Load || plan.action == Start))
      && (plan.requested == Some(RuntimeStop) <==> plan.status == Planned && (plan.action == Unload || plan.action == Stop))
      && (IsLoadLike(plan.action) <==> IsLoadLike(target))
  {
    var gating := GatingSummaryOf(precheck, conflict, target, now);
    PlanRequestFollows(gating, conflict, target, now);
    var targets := ReleaseTargetsOf(conflict.reasons);
    forall id ensures id in targets <==> id != "" && MentionsMutex(conflict.reasons, id) {
      ReleaseTargetIff(conflict.reasons, id);
    }
    if targets != [] {
      assert targets[0] in targets;
      var r :| r in conflict.reasons && r.code == KindMutex && r.related == targets[0];
      var k: nat :| k < |conflict.reasons| && conflict.reasons[k] == r;
      KeyedIff(KeepAll([], precheck.reasons), conflict.reasons, r);
      assert SameKey(conflict.reasons[k], r);
      var e :| e in gating.reasons && SameKey(e, r);
    }
  }

  lemma {:induction false} BlockingCodesIff(reasons: seq<Reason>, c: Code)
    ensures c in BlockingCodes(reasons) <==> c != NoCode && exists r :: r in reasons && r.blocking && r.code == c
  {
    if reasons != [] {
      var front, last := reasons[..|reasons| - 1], reasons[|reasons| - 1];
      BlockingCodesIff(front, c);
      assert reasons == front + [last];
      assert forall r :: r in reasons <==> r in front || r == last;
    }
  }

  /** A refused plan names exactly the codes of the reasons that block. */
  lemma RefusedPlanNamesBlockers(precheck: PrecheckSummary, conflict: ConflictSummary, target: Action, now: Time, c: Code)
    requires !GatingSummaryOf(precheck, conflict, target, now).allowed && target != NoAction
    ensures var gating := GatingSummaryOf(precheck, conflict, target, now);
            c in PlanOf(gating, conflict, target, now).blockedCodes
            <==> c != NoCode && exists r :: r in gating.reasons && r.blocking && r.code == c
  {
    BlockingCodesIff(GatingSummaryOf(precheck, conflict, target, now).reasons, c);
  }
}
