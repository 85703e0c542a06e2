/** How often the conflict list names one reason. The duplicate test of the list compares before
    the owner is filled in, so it never drops one of the instance's own reasons. */
module ConflictRepeats {
  import opened Wrappers
  import opened RuntimeTypes
  import opened Conflict
  import opened Gating
  import opened Decisions
  import opened Reconcile
  import opened InstanceLaws

  /** The two codes under which both the manifest and the agent's precheck can complain. */
  predicate PolicyCode(code: Code) {
    code == CommandOverrideForbidden || code == ScriptMountForbidden
  }

  predicate ManifestForbids(item: Instance, code: Code) {
    && item.manifest.Some?
    && var m := item.manifest.value;
       || (code == CommandOverrideForbidden && !m.commandOverrideAllowed && m.overridesCommand)
       || (code == ScriptMountForbidden && !m.scriptMountAllowed && m.usesScript)
  }

  /** How often an instance is told off under one code: by its manifest, and by its precheck. */
  function Complaints(item: Instance, codes: seq<Code>, code: Code): nat {
    (if ManifestForbids(item, code) then 1 else 0) + multiset(codes)[code]
  }

  ghost predicate KeysApart(a: seq<Reason>, b: seq<Reason>) {
    forall r, q | r in a && q in b :: !SameKey(r, q)
  }

  lemma DistinctConcatIff(a: seq<Reason>, b: seq<Reason>)
    ensures DistinctKeys(a + b) <==> DistinctKeys(a) && DistinctKeys(b) && KeysApart(a, b)
  {
    var c := a + b;
    if DistinctKeys(c) {
      forall j, k | 0 <= j < k < |a| ensures !SameKey(a[j], a[k]) {
        assert c[j] == a[j] && c[k] == a[k];
      }
      forall j, k | 0 <= j < k < |b| ensures !SameKey(b[j], b[k]) {
        assert c[|a| + j] == b[j] && c[|a| + k] == b[k];
      }
      forall r, q | r in a && q in b ensures !SameKey(r, q) {
        var j :| 0 <= j < |a| && a[j] == r;
        var k :| 0 <= k < |b| && b[k] == q;
        assert c[j] == r && c[|a| + k] == q;
      }
    }
  }

  lemma DistinctSnocIff(a: seq<Reason>, r: Reason)
    ensures DistinctKeys(a + [r]) <==> DistinctKeys(a) && !Keyed(a, r)
  {
    DistinctConcatIff(a, [r]);
  }

  // ---- The peers' reasons never repeat ----

  lemma ThreeReasonsDiffer(ports: bool, mutex: bool, model: bool, wantsLoad: bool, id: InstanceId)
    ensures var rs := When(ports, About(PortConflict, wantsLoad, id))
                      + When(mutex, About(KindMutex, true, id)) + When(model, About(DuplicateModel, true, id));
            DistinctKeys(rs) && forall r | r in rs :: r.related == id
  {
  }

  lemma PeerReasonsDiffer(item: Instance, other: Instance, wantsLoad: bool)
    ensures DistinctKeys(PeerReasons(item, other, wantsLoad))
    ensures forall r | r in PeerReasons(item, other, wantsLoad) :: r.related == other.id != item.id
  {
    if Competes(item, other) {
      var idle := wantsLoad && !item.observed.Running?;
      ThreeReasonsDiffer(SharePort(PortsOf(item), PortsOf(other)), SameSlot(item, other) && idle,
                         other.modelId == item.modelId && idle, wantsLoad, other.id);
    }
  }

  lemma {:induction false} AllPeerReasonsDiffer(item: Instance, others: seq<Instance>, wantsLoad: bool)
    requires ProperListing(others)
    ensures DistinctKeys(AllPeerReasons(item, others, wantsLoad))
    ensures NoneAbout(AllPeerReasons(item, others, wantsLoad), item.id)
  {
    if others != [] {
      var front, last := others[..|others| - 1], others[|others| - 1];
      AllPeerReasonsDiffer(item, front, wantsLoad);
      PeerReasonsDiffer(item, last, wantsLoad);
      PeerReasonsMentionPeers(item, front, wantsLoad, last.id);
      DistinctConcatIff(AllPeerReasons(item, front, wantsLoad), PeerReasons(item, last, wantsLoad));
    }
  }

  // ---- The instance's own policy reasons ----

  function PolicyReasons(item: Instance, codes: seq<Code>): seq<Reason> {
    ManifestReasons(item) + PrecheckPolicyReasons(item, codes)
  }

  lemma {:induction false} PolicyReasonsShape(item: Instance, codes: seq<Code>)
    ensures forall r | r in PolicyReasons(item, codes) :: PolicyCode(r.code) && r == About(r.code, true, item.id)
  {
    if codes != [] {
      var front := codes[..|codes| - 1];
      PolicyReasonsShape(item, front);
      forall r | r in PrecheckPolicyReasons(item, front) ensures r in PolicyReasons(item, front) {}
    }
  }

  lemma PolicyReasonsSnoc(item: Instance, front: seq<Code>, last: Code)
    ensures PolicyReasons(item, front + [last])
         == PolicyReasons(item, front) + When(PolicyCode(last), About(last, true, item.id))
  {
    PrecheckPolicyReasonsSnoc(item, front, last);
    ConcatAssociates(ManifestReasons(item), PrecheckPolicyReasons(item, front),
                     When(PolicyCode(last), About(last, true, item.id)));
  }

  lemma CountWhen(rs: seq<Reason>, condition: bool, more: Reason, r: Reason)
    ensures multiset(rs + When(condition, more))[r] == multiset(rs)[r] + if condition && more == r then 1 else 0
  {
  }

  lemma ManifestReasonsCount(item: Instance, code: Code)
    requires PolicyCode(code)
    ensures multiset(ManifestReasons(item))[About(code, true, item.id)] == if ManifestForbids(item, code) then 1 else 0
  {
    if item.manifest.Some? {
      var m := item.manifest.value;
      var r := About(code, true, item.id);
      var first := When(!m.commandOverrideAllowed && m.overridesCommand, About(CommandOverrideForbidden, true, item.id));
      CountWhen([], !m.commandOverrideAllowed && m.overridesCommand, About(CommandOverrideForbidden, true, item.id), r);
      assert [] + first == first;
      CountWhen(first, !m.scriptMountAllowed && m.usesScript, About(ScriptMountForbidden, true, item.id), r);
    }
  }

  /** Each complaint is listed: nothing drops the second one. */
  lemma {:induction false} PolicyReasonsCount(item: Instance, codes: seq<Code>, code: Code)
    requires PolicyCode(code)
    ensures multiset(PolicyReasons(item, codes))[About(code, true, item.id)] == Complaints(item, codes, code)
  {
    if codes == [] {
      assert PolicyReasons(item, codes) == ManifestReasons(item);
      ManifestReasonsCount(item, code);
    } else {
      var front, last := codes[..|codes| - 1], codes[|codes| - 1];
      assert codes == front + [last];
      PolicyReasonsCount(item, front, code);
      PolicyReasonsSnoc(item, front, last);
      CountWhen(PolicyReasons(item, front), PolicyCode(last), About(last, true, item.id), About(code, true, item.id));
    }
  }

  lemma PolicyReasonKeyed(item: Instance, codes: seq<Code>, code: Code)
    requires PolicyCode(code)
    ensures Keyed(PolicyReasons(item, codes), About(code, true, item.id)) <==> Complaints(item, codes, code) > 0
  {
    var rs, r := PolicyReasons(item, codes), About(code, true, item.id);
    PolicyReasonsShape(item, codes);
    PolicyReasonsCount(item, codes, code);
    assert r in rs <==> multiset(rs)[r] > 0;
    assert r in rs ==> SameKey(r, r);
  }

  lemma DistinctNextIff(rs: seq<Reason>, condition: bool, r: Reason)
    ensures DistinctKeys(rs + When(condition, r)) <==> DistinctKeys(rs) && !(condition && Keyed(rs, r))
  {
    if condition {
      DistinctSnocIff(rs, r);
    } else {
      assert rs + When(condition, r) == rs;
    }
  }

  lemma ComplaintsNext(item: Instance, front: seq<Code>, last: Code, code: Code)
    ensures Complaints(item, front + [last], code) == Complaints(item, front, code) + if last == code then 1 else 0
  {
  }

  lemma {:induction false} PolicyReasonsDifferIff(item: Instance, codes: seq<Code>)
    ensures DistinctKeys(PolicyReasons(item, codes))
       <==> Complaints(item, codes, CommandOverrideForbidden) <= 1 && Complaints(item, codes, ScriptMountForbidden) <= 1
  {
    if codes == [] {
      assert PolicyReasons(item, codes) == ManifestReasons(item);
    } else {
      var front, last := codes[..|codes| - 1], codes[|codes| - 1];
      assert codes == front + [last];
      PolicyReasonsDifferIff(item, front);
      PolicyReasonsSnoc(item, front, last);
      DistinctNextIff(PolicyReasons(item, front), PolicyCode(last), About(last, true, item.id));
      ComplaintsNext(item, front, last, CommandOverrideForbidden);
      ComplaintsNext(item, front, last, ScriptMountForbidden);
      if PolicyCode(last) {
        PolicyReasonKeyed(item, front, last);
      }
    }
  }

  // ---- The whole list ----

  function Contact(item: Instance, signals: Signals, wantsLoad: bool): seq<Reason> {
    OfflineReasons(item, signals, wantsLoad) + StaleReasons(item, signals, wantsLoad)
  }

  lemma Grouped(a: seq<Reason>, b: seq<Reason>, c: seq<Reason>, d: seq<Reason>, e: seq<Reason>, f: seq<Reason>)
    ensures a + b + c + d + e + f == (a + b) + ((c + d) + (e + f))
  {
  }

  lemma ConflictReasonsInParts(item: Instance, others: seq<Instance>, target: Action, signals: Signals)
    ensures var wantsLoad := WantsLoad(item, target);
            ConflictReasons(item, others, target, signals)
            == FoundAroundItem(item, others, wantsLoad)
               + (PolicyReasons(item, item.precheck.reasons) + Contact(item, signals, wantsLoad))
  {
    var wantsLoad := WantsLoad(item, target);
    Grouped(DriftReasons(item), AllPeerReasons(item, others, wantsLoad), ManifestReasons(item),
            PrecheckPolicyReasons(item, item.precheck.reasons), OfflineReasons(item, signals, wantsLoad),
            StaleReasons(item, signals, wantsLoad));
  }

  lemma AroundDiffers(item: Instance, others: seq<Instance>, wantsLoad: bool)
    requires ProperListing(others)
    ensures DistinctKeys(FoundAroundItem(item, others, wantsLoad))
    ensures forall r | r in FoundAroundItem(item, others, wantsLoad) :: r.related == item.id ==> r.code == Drift
  {
    AllPeerReasonsDiffer(item, others, wantsLoad);
    DistinctConcatIff(DriftReasons(item), AllPeerReasons(item, others, wantsLoad));
  }

  lemma ContactDiffers(item: Instance, signals: Signals, wantsLoad: bool)
    ensures DistinctKeys(Contact(item, signals, wantsLoad))
    ensures forall r | r in Contact(item, signals, wantsLoad) ::
              r.related == item.id && (r.code == AgentOffline || r.code == ObservationStale)
  {
  }

  ghost predicate AllOwn(rs: seq<Reason>, id: InstanceId) {
    forall r | r in rs :: r.related == id && r.code != Drift
  }

  lemma PolicyThenContact(policy: seq<Reason>, contact: seq<Reason>, id: InstanceId)
    requires forall r | r in policy :: r.related == id && PolicyCode(r.code)
    requires forall r | r in contact :: r.related == id && (r.code == AgentOffline || r.code == ObservationStale)
    requires DistinctKeys(contact)
    ensures (DistinctKeys(policy + contact) <==> DistinctKeys(policy)) && AllOwn(policy + contact, id)
  {
    DistinctConcatIff(policy, contact);
  }

  lemma AroundThenOwn(around: seq<Reason>, own: seq<Reason>, id: InstanceId)
    requires forall r | r in around :: r.related == id ==> r.code == Drift
    requires AllOwn(own, id) && DistinctKeys(around)
    ensures DistinctKeys(around + own) <==> DistinctKeys(own)
  {
    DistinctConcatIff(around, own);
  }

  /** The list names every key once exactly when, under neither of the two codes, the instance is
      told off more than once: by its manifest and by its precheck, or twice by its precheck. */
  lemma NoReasonTwiceIff(item: Instance, others: seq<Instance>, target: Action, signals: Signals)
    requires ProperListing(others)
    ensures DistinctKeys(ConflictReasons(item, others, target, signals))
       <==> && Complaints(item, item.precheck.reasons, CommandOverrideForbidden) <= 1
            && Complaints(item, item.precheck.reasons, ScriptMountForbidden) <= 1
  {
    var wantsLoad := WantsLoad(item, target);
    var policy, contact := PolicyReasons(item, item.precheck.reasons), Contact(item, signals, wantsLoad);
    ConflictReasonsInParts(item, others, target, signals);
    AroundDiffers(item, others, wantsLoad);
    PolicyReasonsShape(item, item.precheck.reasons);
    ContactDiffers(item, signals, wantsLoad);
    PolicyThenContact(policy, contact, item.id);
    AroundThenOwn(FoundAroundItem(item, others, wantsLoad), policy + contact, item.id);
    PolicyReasonsDifferIff(item, item.precheck.reasons);
  }

  lemma NotAmong(rs: seq<Reason>, r: Reason)
    requires forall q | q in rs :: q != r
    ensures multiset(rs)[r] == 0
  {
    assert r in multiset(rs) ==> r in rs;
  }

  /** The witness, for both codes and any listing: an own policy reason is listed as often as the
      instance is told off, so a manifest and a precheck that agree list it twice. */
  lemma RepeatedOwnReason(item: Instance, others: seq<Instance>, target: Action, signals: Signals, code: Code)
    requires PolicyCode(code) && ProperListing(others)
    ensures var r := About(code, true, item.id);
            && multiset(ConflictReasons(item, others, target, signals))[r] == Complaints(item, item.precheck.reasons, code)
            && (ManifestForbids(item, code) && code in item.precheck.reasons
                ==> multiset(ConflictReasons(item, others, target, signals))[r] >= 2)
  {
    var wantsLoad := WantsLoad(item, target);
    var r := About(code, true, item.id);
    ConflictReasonsInParts(item, others, target, signals);
    AroundDiffers(item, others, wantsLoad);
    ContactDiffers(item, signals, wantsLoad);
    NotAmong(FoundAroundItem(item, others, wantsLoad), r);
    NotAmong(Contact(item, signals, wantsLoad), r);
    PolicyReasonsCount(item, item.precheck.reasons, code);
  }

  // ---- In a reconcile ----

  predicate DistinctCodes(codes: seq<Code>) {
    forall j, k | 0 <= j < k < |codes| :: codes[j] != codes[k]
  }

  lemma {:induction false} MergedCodesStayDistinct(seen: seq<Code>, more: seq<Code>)
    requires DistinctCodes(seen)
    ensures DistinctCodes(MergeCodes(seen, more))
    decreases more
  {
    if more != [] {
      MergedCodesStayDistinct(AddCode(seen, more[0]), more[1..]);
    }
  }

  /** The codes a reconcile's precheck hands to the conflict evaluation are distinct. */
  lemma PrecheckCodesAreDistinct(i: Instance, env: Env)
    ensures DistinctCodes(Prechecked(i, env).precheck.reasons)
  {
    var p := Prepared(i, env);
    var s := PrecheckSummaryOf(p, env.now);
    CodesOntoDistinct([], s.reasons);
    MergedCodesStayDistinct(Codes(s.reasons), p.precheck.reasons);
  }

  lemma {:induction false} DistinctCodesCount(codes: seq<Code>, code: Code)
    requires DistinctCodes(codes)
    ensures multiset(codes)[code] == if code in codes then 1 else 0
  {
    if codes != [] {
      var n := |codes| - 1;
      DistinctCodesCount(codes[..n], code);
      assert codes == codes[..n] + [codes[n]];
      assert codes[n] !in codes[..n];
    }
  }

  /** The agent's precheck of an instance names a code, as a flat code or in its summary. */
  predicate PrecheckNames(i: Instance, code: Code) {
    || code in i.precheck.reasons
    || (i.precheck.summary.Some? && exists r :: r in i.precheck.summary.value.reasons && r.code == code)
  }

  lemma {:induction false} ConditionCodes(codes: seq<Code>, source: Source, id: InstanceId)
    ensures forall r | r in ConditionReasons(codes, source, id) :: r.code in codes
  {
    if codes != [] {
      ConditionCodes(codes[1..], source, id);
    }
  }

  lemma PrecheckCodesIff(i: Instance, env: Env, code: Code)
    requires code != NoCode
    ensures code in Prechecked(i, env).precheck.reasons <==> PrecheckNames(i, code)
  {
    var p := Prepared(i, env);
    var s := PrecheckSummaryOf(p, env.now);
    MergeCodesHolds(Codes(s.reasons), p.precheck.reasons, code);
    CodesOntoIff([], s.reasons, code);
    ConditionCodes(p.precheck.reasons, s.source, i.id);
  }

  lemma ComplaintsInReconcile(i: Instance, env: Env, code: Code)
    requires PolicyCode(code)
    ensures var item := Prechecked(i, env);
            Complaints(item, item.precheck.reasons, code) <= 1 <==> !(ManifestForbids(i, code) && PrecheckNames(i, code))
  {
    PrecheckCodesAreDistinct(i, env);
    DistinctCodesCount(Prechecked(i, env).precheck.reasons, code);
    PrecheckCodesIff(i, env, code);
    assert ManifestForbids(Prechecked(i, env), code) == ManifestForbids(i, code);
  }

  /** So the conflicts a reconcile finds name a reason twice exactly when the manifest and the
      agent's precheck forbid the same thing, whatever the other instances are. */
  lemma ReconcileRepeatsIff(i: Instance, others: seq<Instance>, trigger: Trigger, env: Env)
    requires ProperListing(others)
    ensures DistinctKeys(Judge(i, others, trigger, env).conflict.reasons)
       <==> && !(ManifestForbids(i, CommandOverrideForbidden) && PrecheckNames(i, CommandOverrideForbidden))
            && !(ManifestForbids(i, ScriptMountForbidden) && PrecheckNames(i, ScriptMountForbidden))
  {
    var p := Prepared(i, env);
    NoReasonTwiceIff(Prechecked(i, env), others, TargetAction(p.desired, p.observed, trigger), SignalsOf(p, env));
    ComplaintsInReconcile(i, env, CommandOverrideForbidden);
    ComplaintsInReconcile(i, env, ScriptMountForbidden);
  }
}
