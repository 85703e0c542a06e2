/** Flat decision fields and their summaries: how a save fills the summaries in, how a load
    fills the fields in, and when both leave an instance alone. */
module Decisions {
  import opened Wrappers
  import opened RuntimeTypes

  function ConditionReasons(codes: seq<Code>, source: Source, id: InstanceId): seq<Reason> {
    if codes == [] then []
    else (if codes[0] == NoCode then [] else [Reason(codes[0], true, source, id)])
         + ConditionReasons(codes[1..], source, id)
  }

  function KnownSource(primary: Source, fallback: Source): Source {
    if primary.NoSource? || primary.UnknownSource? then fallback else primary
  }

  // ---- Saving: a missing summary is rebuilt from the flat fields ----

  function PersistPrecheck(p: PrecheckFields, i: Instance): PrecheckFields {
    if p.summary.None? && (!p.status.PrecheckUnset? || p.gating || p.reasons != []) then
      p.(summary := Some(PrecheckSummary(p.status, p.gating, ConditionReasons(p.reasons, FromController, i.id),
                                         NewerTime(i.lastPrecheckAt, i.lastReconciledAt), FromController)))
    else p
  }

  function PersistConflict(c: ConflictFields, i: Instance): ConflictFields {
    if c.summary.None? && (!c.status.ConflictUnset? || c.reasons != [] || c.blocking) then
      var source := KnownSource(c.source, FromController);
      c.(summary := Some(ConflictSummary(c.status, c.blocking, ConditionReasons(c.reasons, source, i.id),
                                         NewerTime(c.generatedAt, i.lastReconciledAt), source)))
    else c
  }

  function PersistGating(g: GatingFields, i: Instance): GatingFields {
    if g.summary.None? && (!g.status.GatingUnset? || g.reasons != [] || g.allowed) then
      var source := KnownSource(g.source, FromController);
      g.(summary := Some(GatingSummary(g.status, g.allowed, ConditionReasons(g.reasons, source, i.id),
                                       NewerTime(g.generatedAt, i.lastReconciledAt), source, i.lastPlan.action)))
    else g
  }

  function PersistPlan(p: PlanFields): PlanFields {
    if p.plan.None? && (!p.action.ActionUnset? || !p.status.PlanUnset? || !p.message.NoMessage?) then
      p.(plan := Some(Plan(p.action, p.status, p.message, [], [], [], None, p.generatedAt)))
    else p
  }

  function Persist(i: Instance): Instance {
    i.(precheck := PersistPrecheck(i.precheck, i), conflict := PersistConflict(i.conflict, i),
       gating := PersistGating(i.gating, i), lastPlan := PersistPlan(i.lastPlan))
  }

  // ---- Loading: flat fields are completed from the summaries ----

  function HydratePrecheck(p: PrecheckFields): PrecheckFields {
    if p.summary.None? then p
    else
      var s := p.summary.value;
      PrecheckFields(if p.status.PrecheckUnset? then s.status else p.status,
                     p.gating || s.gating, MergeCodes(Codes(s.reasons), p.reasons), p.summary)
  }

  function HydrateConflict(c: ConflictFields): ConflictFields {
    if c.summary.None? then c
    else
      var s := c.summary.value;
      ConflictFields(if c.status.ConflictUnset? then s.status else c.status,
                     c.blocking || s.blocking, MergeCodes(Codes(s.reasons), c.reasons),
                     if c.source.NoSource? then s.source else c.source,
                     NewerTime(c.generatedAt, s.generatedAt), c.summary)
  }

  function HydrateGating(g: GatingFields): GatingFields {
    if g.summary.None? then g
    else
      var s := g.summary.value;
      GatingFields(if g.status.GatingUnset? then s.status else g.status,
                   g.allowed || s.allowed, MergeCodes(Codes(s.reasons), g.reasons),
                   if g.source.NoSource? then s.source else g.source,
                   NewerTime(g.generatedAt, s.generatedAt), g.summary)
  }

  function HydratePlan(p: PlanFields): PlanFields {
    if p.plan.None? then p
    else
      var s := p.plan.value;
      PlanFields(if p.action.ActionUnset? then s.action else p.action,
                 if p.status.PlanUnset? then s.status else p.status,
                 if p.message.NoMessage? then s.message else p.message,
                 NewerTime(p.generatedAt, s.generatedAt), p.plan)
  }

  function Hydrate(i: Instance): Instance {
    i.(precheck := HydratePrecheck(i.precheck), conflict := HydrateConflict(i.conflict),
       gating := HydrateGating(i.gating), lastPlan := HydratePlan(i.lastPlan))
  }

  /** What the controller keeps in memory after an upsert. */
  function Stored(i: Instance): Instance {
    Hydrate(Persist(i))
  }

  // ---- The fields agree with their summaries ----

  predicate SettledPrecheck(p: PrecheckFields) {
    && p.summary.Some?
    && var s := p.summary.value;
       p.status == s.status && p.gating == s.gating && p.reasons == Codes(s.reasons) && !p.status.PrecheckUnset?
  }

  /** Before the first reconcile there is no summary and nothing to agree with. */
  predicate SettledConflict(c: ConflictFields) {
    match c.summary
    case None => c == ConflictFields(ConflictUnset, false, [], NoSource, 0, None)
    case Some(s) => c == ConflictFields(s.status, s.blocking, Codes(s.reasons), s.source, s.generatedAt, Some(s))
  }

  predicate SettledGating(g: GatingFields) {
    match g.summary
    case None => g == GatingFields(GatingUnset, false, [], NoSource, 0, None)
    case Some(s) => g == GatingFields(s.status, s.allowed, Codes(s.reasons), s.source, s.generatedAt, Some(s))
  }

  predicate SettledPlan(p: PlanFields) {
    match p.plan
    case None => p == PlanFields(ActionUnset, PlanUnset, NoMessage, 0, None)
    case Some(s) => p == PlanFields(s.action, s.status, s.message, s.generatedAt, Some(s))
  }

  predicate Settled(i: Instance) {
    SettledPrecheck(i.precheck) && SettledConflict(i.conflict) && SettledGating(i.gating) && SettledPlan(i.lastPlan)
  }

  /** Saving and loading leave a settled instance exactly as it is. */
  lemma SettledIsStored(i: Instance)
    requires Settled(i)
    ensures Persist(i) == i && Hydrate(i) == i && Stored(i) == i
  {
    MergeCodesAbsorbs(i.precheck.reasons, i.precheck.reasons);
    MergeCodesAbsorbs(i.conflict.reasons, i.conflict.reasons);
    MergeCodesAbsorbs(i.gating.reasons, i.gating.reasons);
  }

  lemma {:induction false} CodesOntoHolds(seen: seq<Code>, reasons: seq<Reason>)
    ensures forall c | c in seen :: c in CodesOnto(seen, reasons)
    ensures forall r | r in reasons && r.code != NoCode :: r.code in CodesOnto(seen, reasons)
    decreases reasons
  {
    if reasons != [] {
      var more := AddCode(seen, reasons[0].code);
      CodesOntoHolds(more, reasons[1..]);
      forall r | r in reasons && r.code != NoCode
        ensures r.code in CodesOnto(seen, reasons)
      {
        if r != reasons[0] {
          assert r in reasons[1..];
        }
      }
    }
  }

  lemma {:induction false} CodesOntoIff(seen: seq<Code>, reasons: seq<Reason>, c: Code)
    ensures c in CodesOnto(seen, reasons) <==> c in seen || (c != NoCode && exists r :: r in reasons && r.code == c)
    decreases reasons
  {
    if reasons != [] {
      CodesOntoIff(AddCode(seen, reasons[0].code), reasons[1..], c);
      assert reasons == [reasons[0]] + reasons[1..];
      assert forall r :: r in reasons <==> r == reasons[0] || r in reasons[1..];
    }
  }

  lemma {:induction false} ConditionReasonsHold(codes: seq<Code>, source: Source, id: InstanceId)
    ensures forall c | c in codes && c != NoCode :: Reason(c, true, source, id) in ConditionReasons(codes, source, id)
  {
    if codes != [] {
      ConditionReasonsHold(codes[1..], source, id);
    }
  }

  /** Flat codes that came from a list without blanks are the codes of the reasons made of it. */
  lemma MergeConditionCodes(codes: seq<Code>, source: Source, id: InstanceId)
    requires NoCode !in codes
    ensures var cs := Codes(ConditionReasons(codes, source, id));
            MergeCodes(cs, codes) == cs
  {
    var rs := ConditionReasons(codes, source, id);
    ConditionReasonsHold(codes, source, id);
    CodesOntoHolds([], rs);
    forall c | c in codes
      ensures c in Codes(rs)
    {
      assert Reason(c, true, source, id) in rs;
    }
    MergeCodesAbsorbs(Codes(rs), codes);
  }

  /** A save without a summary makes one of the flat fields, as soon as they say anything: it has their
      status and verdict, and a reason for every code. A summary that is there is left alone. */
  lemma SaveFillsSummaries(i: Instance, code: Code)
    requires code != NoCode
    ensures var was, p := i.precheck, Persist(i).precheck;
            && (was.summary.Some? ==> p == was)
            && (was.summary.None? && (was.status != PrecheckUnset || was.gating || was.reasons != []) ==>
                  && p.summary.Some? && p.summary.value.status == was.status && p.summary.value.gating == was.gating
                  && (code in was.reasons ==> exists r :: r in p.summary.value.reasons && r.code == code && r.blocking))
    ensures var was, c := i.conflict, Persist(i).conflict;
            && (was.summary.Some? ==> c == was)
            && (was.summary.None? && (was.status != ConflictUnset || was.blocking || was.reasons != []) ==>
                  c.summary.Some? && c.summary.value.status == was.status && c.summary.value.blocking == was.blocking)
    ensures var was, g := i.gating, Persist(i).gating;
            && (was.summary.Some? ==> g == was)
            && (was.summary.None? && (was.status != GatingUnset || was.allowed || was.reasons != []) ==>
                  g.summary.Some? && g.summary.value.status == was.status && g.summary.value.allowed == was.allowed)
  {
    ConditionReasonsHold(i.precheck.reasons, FromController, i.id);
    if code in i.precheck.reasons {
      assert Reason(code, true, FromController, i.id) in ConditionReasons(i.precheck.reasons, FromController, i.id);
    }
  }

  /** A load keeps every verdict that was recorded in either place, and every code. */
  lemma LoadKeepsVerdicts(i: Instance)
    ensures var h := Hydrate(i);
            && (h.precheck.gating <==> i.precheck.gating
                                       || (i.precheck.summary.Some? && i.precheck.summary.value.gating))
            && (h.conflict.blocking <==> i.conflict.blocking
                                         || (i.conflict.summary.Some? && i.conflict.summary.value.blocking))
            && (h.gating.allowed <==> i.gating.allowed || (i.gating.summary.Some? && i.gating.summary.value.allowed))
            && (forall c | c in i.precheck.reasons && c != NoCode :: c in h.precheck.reasons)
  {
    if i.precheck.summary.Some? {
      forall c | c in i.precheck.reasons && c != NoCode
        ensures c in MergeCodes(Codes(i.precheck.summary.value.reasons), i.precheck.reasons)
      {
        MergeCodesHolds(Codes(i.precheck.summary.value.reasons), i.precheck.reasons, c);
      }
    }
  }

  lemma {:induction false} MergeCodesHolds(seen: seq<Code>, more: seq<Code>, c: Code)
    ensures c in MergeCodes(seen, more) <==> c in seen || (c in more && c != NoCode)
    decreases more
  {
    if more != [] {
      MergeCodesHolds(AddCode(seen, more[0]), more[1..], c);
      assert more == [more[0]] + more[1..];
    }
  }
}
