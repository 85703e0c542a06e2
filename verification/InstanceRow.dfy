/** The stored form of an instance: the columns of its row, what a write puts into them and what
    a read, followed by hydration, restores. Blocking, the sources and the times of the conflict
    and gating decisions have no column of their own, nor have the flat plan fields. */
module InstanceRow {
  import opened Wrappers
  import opened RuntimeTypes
  import opened Conflict
  import opened Gating
  import opened Decisions
  import opened Reconcile
  import opened InstanceLaws

  /** The metadata column: copies a save leaves beside the columns. */
  datatype Notes = Notes(
    hostPorts: seq<string>, lastAgentTaskAt: Time,
    precheck: Option<PrecheckSummary>, conflict: Option<ConflictSummary>, gating: Option<GatingSummary>,
    plan: Option<Plan>)

  datatype Row = Row(
    id: InstanceId, modelId: ModelId, nodeId: NodeId, desired: Phase, observed: Phase, readiness: Readiness,
    precheckedByAgent: bool, lastPrecheckAt: Time, lastReconciledAt: Time, notes: Notes,
    precheckStatus: PrecheckStatus, precheckGating: bool, precheckReasons: seq<Code>,
    precheckSummary: Option<PrecheckSummary>,
    conflictStatus: ConflictStatus, conflictReasons: seq<Code>, conflictSummary: Option<ConflictSummary>,
    gatingStatus: GatingStatus, gatingAllowed: bool, gatingReasons: seq<Code>, gatingSummary: Option<GatingSummary>,
    plan: Option<Plan>)

  // ---- The store's own normalisation, before a write and after a read ----

  function NormalPrecheck(p: PrecheckFields): PrecheckFields {
    match p.summary
    case None => p
    case Some(s) =>
      p.(status := if p.status.PrecheckUnset? then s.status else p.status, gating := p.gating || s.gating)
  }

  function NormalConflict(c: ConflictFields): ConflictFields {
    match c.summary
    case None => c
    case Some(s) =>
      c.(status := if c.status.ConflictUnset? then s.status else c.status, blocking := c.blocking || s.blocking,
         generatedAt := NewerTime(c.generatedAt, s.generatedAt),
         source := if c.source.NoSource? then s.source else c.source)
  }

  function NormalGating(g: GatingFields): GatingFields {
    match g.summary
    case None => g
    case Some(s) =>
      g.(status := if g.status.GatingUnset? then s.status else g.status, allowed := g.allowed || s.allowed,
         generatedAt := NewerTime(g.generatedAt, s.generatedAt),
         source := if g.source.NoSource? then s.source else g.source)
  }

  function NormalPlan(p: PlanFields): PlanFields {
    match p.plan
    case None => p
    case Some(s) =>
      p.(action := if p.action.ActionUnset? then s.action else p.action,
         status := if p.status.PlanUnset? then s.status else p.status,
         message := if p.message.NoMessage? then s.message else p.message,
         generatedAt := NewerTime(p.generatedAt, s.generatedAt))
  }

  function NormalAfterRead(i: Instance): Instance {
    i.(precheck := NormalPrecheck(i.precheck), conflict := NormalConflict(i.conflict),
       gating := NormalGating(i.gating), lastPlan := NormalPlan(i.lastPlan))
  }

  /** A write always stores a conflict and a gating summary, a blank one if need be. */
  function ConflictForWrite(c: ConflictFields): ConflictFields {
    var n := NormalConflict(c);
    if n.summary.Some? then n
    else n.(summary := Some(ConflictSummary(n.status, n.blocking, [], n.generatedAt, n.source)))
  }

  function GatingForWrite(g: GatingFields): GatingFields {
    var n := NormalGating(g);
    if n.summary.Some? then n
    else n.(summary := Some(GatingSummary(n.status, n.allowed, [], n.generatedAt, n.source, ActionUnset)))
  }

  function PlanForWrite(p: PlanFields): PlanFields {
    var n := NormalPlan(p);
    if n.plan.None? && (!n.action.ActionUnset? || !n.status.PlanUnset? || !n.message.NoMessage? || n.generatedAt != 0) then
      n.(plan := Some(Plan(n.action, n.status, n.message, [], [], [], None, n.generatedAt)))
    else n
  }

  function NormalForWrite(i: Instance): Instance {
    i.(precheck := NormalPrecheck(i.precheck), conflict := ConflictForWrite(i.conflict),
       gating := GatingForWrite(i.gating), lastPlan := PlanForWrite(i.lastPlan))
  }

  // ---- Write ----

  function KnownPhase(p: Phase): Phase {
    if p.Blank? then UnknownPhase else p
  }

  function KnownConflict(s: ConflictStatus): ConflictStatus {
    if s.ConflictUnset? then ConflictUnknown else s
  }

  function KnownGating(s: GatingStatus): GatingStatus {
    if s.GatingUnset? then GatingUnknown else s
  }

  function NotesOf(i: Instance): Notes {
    Notes(i.hostPorts, i.lastAgentTaskAt, i.precheck.summary, i.conflict.summary, i.gating.summary, i.lastPlan.plan)
  }

  /** The row a save writes for an instance whose summaries have been filled in. */
  function WriteRow(i: Instance): Row {
    var n := NormalForWrite(i);
    Row(n.id, n.modelId, n.nodeId, KnownPhase(n.desired), KnownPhase(n.observed), n.readiness,
        n.precheckedByAgent, n.lastPrecheckAt, n.lastReconciledAt, NotesOf(i),
        if n.precheck.status.PrecheckUnset? then PrecheckUnknown else n.precheck.status,
        n.precheck.gating, n.precheck.reasons, n.precheck.summary,
        KnownConflict(n.conflict.status), n.conflict.reasons, n.conflict.summary,
        KnownGating(n.gating.status),
        n.gating.allowed, n.gating.reasons, n.gating.summary, n.lastPlan.plan)
  }

  // ---- Read ----

  /** A summary without a status, reasons or a time reads as no summary at all. */
  function ParsePrecheck(s: Option<PrecheckSummary>): Option<PrecheckSummary> {
    if s.Some? && s.value.status.PrecheckUnset? && s.value.reasons == [] && s.value.generatedAt == 0 then None else s
  }

  function ParseConflict(s: Option<ConflictSummary>): Option<ConflictSummary> {
    if s.Some? && s.value.status.ConflictUnset? && s.value.reasons == [] && s.value.generatedAt == 0 then None else s
  }

  function ParseGating(s: Option<GatingSummary>): Option<GatingSummary> {
    if s.Some? && s.value.status.GatingUnset? && s.value.reasons == [] && s.value.generatedAt == 0 then None else s
  }

  /** A plan is recognised by its id, which every plan of a reconcile has; one rebuilt without
      an id needs an action, a status or a time. */
  function ParsePlan(p: Option<Plan>): Option<Plan> {
    if p.Some? && p.value.action.ActionUnset? && p.value.status.PlanUnset? && p.value.generatedAt == 0 then None else p
  }

  function ReadRow(r: Row, manifest: Option<Manifest>): Instance {
    NormalAfterRead(
      Instance(r.id, r.modelId, r.nodeId, manifest, r.desired, r.observed, r.readiness, [],
               r.precheckedByAgent, r.lastPrecheckAt, 0, r.lastReconciledAt,
               PrecheckFields(r.precheckStatus, r.precheckGating, r.precheckReasons, ParsePrecheck(r.precheckSummary)),
               ConflictFields(r.conflictStatus, false, r.conflictReasons, NoSource, 0, ParseConflict(r.conflictSummary)),
               GatingFields(r.gatingStatus, r.gatingAllowed, r.gatingReasons, NoSource, 0, ParseGating(r.gatingSummary)),
               PlanFields(ActionUnset, PlanUnset, NoMessage, 0, ParsePlan(r.plan))))
  }

  function Else<T>(first: Option<T>, second: Option<T>): Option<T> {
    if first.Some? then first else second
  }

  /** What a load brings back: the row, completed from the metadata copies, hydrated. */
  function Restored(r: Row, manifest: Option<Manifest>): Instance {
    var i := ReadRow(r, manifest);
    Hydrate(i.(hostPorts := r.notes.hostPorts, lastAgentTaskAt := r.notes.lastAgentTaskAt,
               precheck := i.precheck.(summary := Else(i.precheck.summary, r.notes.precheck)),
               conflict := i.conflict.(summary := Else(i.conflict.summary, r.notes.conflict)),
               gating := i.gating.(summary := Else(i.gating.summary, r.notes.gating)),
               lastPlan := i.lastPlan.(plan := Else(i.lastPlan.plan, r.notes.plan))))
  }

  /** What is lost of a settled instance: blank states and unset statuses come back as unknown. */
  function Blurred(i: Instance): Instance {
    i.(desired := KnownPhase(i.desired), observed := KnownPhase(i.observed),
       conflict := i.conflict.(status := KnownConflict(i.conflict.status)),
       gating := i.gating.(status := KnownGating(i.gating.status)))
  }

  lemma PrecheckRestores(i: Instance)
    requires Settled(i)
    ensures Restored(WriteRow(i), i.manifest).precheck == i.precheck
  {
    MergeCodesAbsorbs(i.precheck.reasons, i.precheck.reasons);
  }

  /** What the conflict fields of a row hold when read, before the copies in the notes are used. */
  function ReadConflict(status: ConflictStatus, reasons: seq<Code>, summary: Option<ConflictSummary>): ConflictFields {
    NormalConflict(ConflictFields(status, false, reasons, NoSource, 0, ParseConflict(summary)))
  }

  lemma ConflictFieldsRestore(c: ConflictFields)
    requires SettledConflict(c)
    ensures var w := ConflictForWrite(c);
            var r := ReadConflict(KnownConflict(w.status), w.reasons, w.summary);
            HydrateConflict(r.(summary := Else(r.summary, c.summary))) == c.(status := KnownConflict(c.status))
  {
    MergeCodesAbsorbs(c.reasons, c.reasons);
  }

  lemma ConflictRestores(i: Instance)
    requires Settled(i)
    ensures Restored(WriteRow(i), i.manifest).conflict == Blurred(i).conflict
  {
    ConflictFieldsRestore(i.conflict);
  }

  function ReadGating(status: GatingStatus, allowed: bool, reasons: seq<Code>, summary: Option<GatingSummary>):
    GatingFields
  {
    NormalGating(GatingFields(status, allowed, reasons, NoSource, 0, ParseGating(summary)))
  }

  lemma GatingFieldsRestore(g: GatingFields)
    requires SettledGating(g)
    ensures var w := GatingForWrite(g);
            var r := ReadGating(KnownGating(w.status), w.allowed, w.reasons, w.summary);
            HydrateGating(r.(summary := Else(r.summary, g.summary))) == g.(status := KnownGating(g.status))
  {
    MergeCodesAbsorbs(g.reasons, g.reasons);
  }

  lemma GatingRestores(i: Instance)
    requires Settled(i)
    ensures Restored(WriteRow(i), i.manifest).gating == Blurred(i).gating
  {
    GatingFieldsRestore(i.gating);
  }

  lemma PlanRestores(i: Instance)
    requires Settled(i)
    ensures Restored(WriteRow(i), i.manifest).lastPlan == i.lastPlan
  {
  }

  lemma RestRestores(i: Instance)
    ensures var r := Restored(WriteRow(i), i.manifest);
            Blurred(i) == r.(precheck := i.precheck, lastPlan := i.lastPlan,
                             conflict := Blurred(i).conflict, gating := Blurred(i).gating)
  {
  }

  /** Save, write, read and hydrate restore every decision field of a settled instance, those
      without a column included. */
  lemma RowRestores(i: Instance)
    requires Settled(i)
    ensures Restored(WriteRow(Persist(i)), i.manifest) == Blurred(i)
  {
    SettledIsStored(i);
    PrecheckRestores(i);
    ConflictRestores(i);
    GatingRestores(i);
    PlanRestores(i);
    RestRestores(i);
  }

  /** The round trip is exact precisely for instances that have been judged at least once and
      whose states are filled in. */
  lemma RowRoundTripIff(i: Instance)
    requires Settled(i)
    ensures Restored(WriteRow(Persist(i)), i.manifest) == i
       <==> !i.conflict.status.ConflictUnset? && !i.gating.status.GatingUnset? && !i.desired.Blank? && !i.observed.Blank?
  {
    RowRestores(i);
  }

  /** One reconcile is enough. */
  lemma ReconciledRoundTrips(i: Instance, others: seq<Instance>, trigger: Trigger, env: Env)
    requires Sound(i)
    ensures var r := Reconciled(i, others, trigger, env);
            Settled(r) && Restored(WriteRow(Persist(r)), r.manifest) == r
  {
    ReconcileKeepsSound(i, others, trigger, env);
    RowRoundTripIff(Reconciled(i, others, trigger, env));
  }

  /** Every summary the controller makes carries a status. */
  predicate SummariesNamed(i: Instance) {
    && (i.conflict.summary.Some? ==> !i.conflict.summary.value.status.ConflictUnset?)
    && (i.gating.summary.Some? ==> !i.gating.summary.value.status.GatingUnset?)
  }

  lemma BlurredConflictSettles(i: Instance)
    requires SettledConflict(i.conflict)
    requires i.conflict.summary.Some? ==> !i.conflict.summary.value.status.ConflictUnset?
    ensures var c := Stored(Blurred(i)).conflict;
            SettledConflict(c) && !c.status.ConflictUnset?
  {
    MergeCodesAbsorbs(i.conflict.reasons, i.conflict.reasons);
    assert Codes([]) == [] && MergeCodes([], []) == [];
  }

  lemma BlurredGatingSettles(i: Instance)
    requires SettledGating(i.gating)
    requires i.gating.summary.Some? ==> !i.gating.summary.value.status.GatingUnset?
    ensures var g := Stored(Blurred(i)).gating;
            SettledGating(g) && !g.status.GatingUnset?
  {
    MergeCodesAbsorbs(i.gating.reasons, i.gating.reasons);
    assert Codes([]) == [] && MergeCodes([], []) == [];
  }

  lemma BlurredSettlesOnSave(i: Instance)
    requires Settled(i) && SummariesNamed(i)
    ensures var j := Stored(Blurred(i));
            && SettledPrecheck(j.precheck) && SettledPlan(j.lastPlan)
            && SettledConflict(j.conflict) && !j.conflict.status.ConflictUnset?
            && SettledGating(j.gating) && !j.gating.status.GatingUnset?
            && !j.desired.Blank? && !j.observed.Blank?
  {
    MergeCodesAbsorbs(i.precheck.reasons, i.precheck.reasons);
    BlurredConflictSettles(i);
    BlurredGatingSettles(i);
  }

  /** And so is one further save: what was read back, saved again, is settled and from then on
      read back as it is. */
  lemma SecondSaveSettles(i: Instance)
    requires Settled(i) && SummariesNamed(i)
    ensures var j := Stored(Restored(WriteRow(Persist(i)), i.manifest));
            Settled(j) && Restored(WriteRow(Persist(j)), j.manifest) == j
  {
    RowRestores(i);
    BlurredSettlesOnSave(i);
    RowRoundTripIff(Stored(Blurred(i)));
  }
}
