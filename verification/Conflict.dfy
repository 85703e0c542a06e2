/** Conflict evaluation: what stands between an instance and its target action. */
module Conflict {
  import opened Wrappers
  import opened RuntimeTypes

  /** What is known about the node's agent when an instance is evaluated. */
  datatype Signals = Signals(known: bool, online: bool, stale: bool)

  /** Blocking conflicts are about loading; wanting to run without running counts as loading. */
  predicate WantsLoad(item: Instance, target: Action) {
    IsLoadLike(target) || (item.desired.Running? && !item.observed.Running?)
  }

  function PortsOf(i: Instance): seq<string> {
    if i.hostPorts == [] && i.manifest.Some? then i.manifest.value.hostPorts else i.hostPorts
  }

  predicate SharePort(a: seq<string>, b: seq<string>) {
    exists p :: p in a && p in b
  }

  predicate Competes(item: Instance, other: Instance) {
    other.id != item.id && other.nodeId != "" && other.nodeId == item.nodeId && OccupiesSlot(other)
  }

  function About(code: Code, blocking: bool, related: InstanceId): Reason {
    Reason(code, blocking, FromController, related)
  }

  function When(condition: bool, r: Reason): seq<Reason> {
    if condition then [r] else []
  }

  /** The conflicts one other instance causes. */
  function PeerReasons(item: Instance, other: Instance, wantsLoad: bool): seq<Reason> {
    if !Competes(item, other) then []
    else
      When(SharePort(PortsOf(item), PortsOf(other)), About(PortConflict, wantsLoad, other.id))
      + When(SameSlot(item, other) && wantsLoad && !item.observed.Running?, About(KindMutex, true, other.id))
      + When(other.modelId == item.modelId && wantsLoad && !item.observed.Running?,
             About(DuplicateModel, true, other.id))
  }

  function AllPeerReasons(item: Instance, others: seq<Instance>, wantsLoad: bool): seq<Reason> {
    if others == [] then []
    else AllPeerReasons(item, others[..|others| - 1], wantsLoad)
         + PeerReasons(item, others[|others| - 1], wantsLoad)
  }

  function DriftReasons(item: Instance): seq<Reason> {
    When(!item.desired.Blank? && !item.observed.Blank? && item.desired != item.observed,
         About(Drift, false, item.id))
  }

  function ManifestReasons(item: Instance): seq<Reason> {
    if item.manifest.None? then []
    else
      var m := item.manifest.value;
      When(!m.commandOverrideAllowed && m.overridesCommand, About(CommandOverrideForbidden, true, item.id))
      + When(!m.scriptMountAllowed && m.usesScript, About(ScriptMountForbidden, true, item.id))
  }

  /** Two of the agent's precheck findings are repeated as conflicts. */
  function PrecheckPolicyReasons(item: Instance, codes: seq<Code>): seq<Reason> {
    if codes == [] then []
    else
      var last := codes[|codes| - 1];
      PrecheckPolicyReasons(item, codes[..|codes| - 1])
      + When(last == CommandOverrideForbidden || last == ScriptMountForbidden, About(last, true, item.id))
  }

  function OfflineReasons(item: Instance, signals: Signals, wantsLoad: bool): seq<Reason> {
    When(signals.known && !signals.online && wantsLoad, About(AgentOffline, true, item.id))
  }

  function StaleReasons(item: Instance, signals: Signals, wantsLoad: bool): seq<Reason> {
    When(signals.stale && wantsLoad, About(ObservationStale, true, item.id))
  }

  /** All conflicts of an instance, plainly concatenated. */
  function ConflictReasons(item: Instance, others: seq<Instance>, target: Action, signals: Signals): seq<Reason> {
    var wantsLoad := WantsLoad(item, target);
    DriftReasons(item)
    + AllPeerReasons(item, others, wantsLoad)
    + ManifestReasons(item)
    + PrecheckPolicyReasons(item, item.precheck.reasons)
    + OfflineReasons(item, signals, wantsLoad)
    + StaleReasons(item, signals, wantsLoad)
  }

  predicate AnyBlocking(reasons: seq<Reason>) {
    exists r :: r in reasons && r.blocking
  }

  function ConflictSummaryOf(
    item: Instance, others: seq<Instance>, target: Action, signals: Signals, now: Time): ConflictSummary
  {
    var reasons := ConflictReasons(item, others, target, signals);
    var blocking := AnyBlocking(reasons);
    var status := if reasons == [] then ConflictClear else if blocking then ConflictBlocked else ConflictWarning;
    ConflictSummary(status, blocking, reasons, now, FromController)
  }

  /** A listing names each instance once, under a non-empty id. */
  predicate ProperListing(others: seq<Instance>) {
    && (forall k | 0 <= k < |others| :: others[k].id != "")
    && (forall j, k | 0 <= j < k < |others| :: others[j].id != others[k].id)
  }

  /** The guarded append: a reason whose code and instance are already listed is dropped, and a
      reason without an instance is about the owner. The test runs before the owner is filled in. */
  function AppendReason(reasons: seq<Reason>, owner: InstanceId,
                        code: Code, blocking: bool, related: InstanceId): seq<Reason>
  {
    if code == NoCode || exists r :: r in reasons && r.code == code && r.related == related then reasons
    else reasons + [About(code, blocking, if related == "" then owner else related)]
  }

  predicate NoneAbout(reasons: seq<Reason>, related: InstanceId) {
    forall r | r in reasons :: r.related != related
  }

  predicate Listed(reasons: seq<Reason>, code: Code, related: InstanceId) {
    exists r :: r in reasons && r.code == code && r.related == related
  }

  lemma ListedNext(reasons: seq<Reason>, condition: bool, more: Reason, code: Code, related: InstanceId)
    requires !Listed(reasons, code, related) && more.code != code
    ensures !Listed(reasons + When(condition, more), code, related)
  {
  }

  method AppendAbout(reasons: seq<Reason>, owner: InstanceId, condition: bool, code: Code, blocking: bool,
                     related: InstanceId)
    returns (out: seq<Reason>)
    requires code != NoCode && related != "" && !Listed(reasons, code, related)
    ensures out == reasons + When(condition, About(code, blocking, related))
  {
    out := if condition then AppendReason(reasons, owner, code, blocking, related) else reasons;
  }

  /** The three reasons a peer can cause differ in their code, so none hides another. */
  method AppendPeer(reasons: seq<Reason>, item: Instance, other: Instance, wantsLoad: bool)
    returns (out: seq<Reason>)
    requires other.id != "" && NoneAbout(reasons, other.id)
    ensures out == reasons + PeerReasons(item, other, wantsLoad)
  {
    out := reasons;
    if other.id == item.id || other.nodeId == "" || other.nodeId != item.nodeId || !OccupiesSlot(other) {
      return;
    }
    var wantsSlot := wantsLoad && !item.observed.Running?;
    var share, same := SharePort(PortsOf(item), PortsOf(other)), SameSlot(item, other) && wantsSlot;
    out := AppendAbout(out, item.id, share, PortConflict, wantsLoad, other.id);
    ghost var ports := When(share, About(PortConflict, wantsLoad, other.id));
    ListedNext(reasons, share, About(PortConflict, wantsLoad, other.id), KindMutex, other.id);
    ListedNext(reasons, share, About(PortConflict, wantsLoad, other.id), DuplicateModel, other.id);
    out := AppendAbout(out, item.id, same, KindMutex, true, other.id);
    ghost var mutex := When(same, About(KindMutex, true, other.id));
    ListedNext(reasons + ports, same, About(KindMutex, true, other.id), DuplicateModel, other.id);
    ConcatAssociates(reasons, ports, mutex);
    var again := other.modelId == item.modelId && wantsSlot;
    out := AppendAbout(out, item.id, again, DuplicateModel, true, other.id);
    ConcatAssociates(reasons, ports + mutex, When(again, About(DuplicateModel, true, other.id)));
  }

  lemma PeerReasonsAreAboutPeer(item: Instance, other: Instance, wantsLoad: bool)
    ensures forall r | r in PeerReasons(item, other, wantsLoad) :: r.related == other.id
  {
  }

  /** Peer reasons mention listed peers only. */
  lemma {:induction false} PeerReasonsMentionPeers(
    item: Instance, others: seq<Instance>, wantsLoad: bool, id: InstanceId)
    requires Unlisted(others, id)
    ensures NoneAbout(AllPeerReasons(item, others, wantsLoad), id)
  {
    if others != [] {
      var last := others[|others| - 1];
      PeerReasonsMentionPeers(item, others[..|others| - 1], wantsLoad, id);
      PeerReasonsAreAboutPeer(item, last, wantsLoad);
    }
  }

  lemma NoneAboutConcat(a: seq<Reason>, b: seq<Reason>, related: InstanceId)
    ensures NoneAbout(a + b, related) <==> NoneAbout(a, related) && NoneAbout(b, related)
  {
    forall r ensures r in a + b <==> r in a || r in b {}
  }

  lemma AllPeerReasonsSnoc(item: Instance, front: seq<Instance>, last: Instance, wantsLoad: bool)
    ensures AllPeerReasons(item, front + [last], wantsLoad)
         == AllPeerReasons(item, front, wantsLoad) + PeerReasons(item, last, wantsLoad)
  {
    assert (front + [last])[..|front|] == front;
  }

  lemma ConcatAssociates(a: seq<Reason>, b: seq<Reason>, c: seq<Reason>)
    ensures a + b + c == a + (b + c)
  {
  }

  predicate Unlisted(others: seq<Instance>, id: InstanceId) {
    forall k | 0 <= k < |others| :: others[k].id != id
  }

  predicate OnlyAbout(reasons: seq<Reason>, id: InstanceId) {
    forall r | r in reasons :: r.related == id
  }

  lemma PeerNotMentionedYet(
    prefix: seq<Reason>, item: Instance, front: seq<Instance>, id: InstanceId, wantsLoad: bool)
    requires Unlisted(front, id) && OnlyAbout(prefix, item.id) && id != item.id
    ensures NoneAbout(prefix + AllPeerReasons(item, front, wantsLoad), id)
  {
    PeerReasonsMentionPeers(item, front, wantsLoad, id);
    NoneAboutConcat(prefix, AllPeerReasons(item, front, wantsLoad), id);
  }

  /** One more peer of the listing. */
  method CollectPeer(reasons: seq<Reason>, ghost prefix: seq<Reason>, item: Instance,
                     ghost front: seq<Instance>, other: Instance, wantsLoad: bool)
    returns (out: seq<Reason>)
    requires reasons == prefix + AllPeerReasons(item, front, wantsLoad)
    requires other.id != "" && Unlisted(front, other.id) && OnlyAbout(prefix, item.id)
    ensures out == prefix + AllPeerReasons(item, front + [other], wantsLoad)
  {
    AllPeerReasonsSnoc(item, front, other, wantsLoad);
    ConcatAssociates(prefix, AllPeerReasons(item, front, wantsLoad), PeerReasons(item, other, wantsLoad));
    if other.id == item.id {
      out := reasons;
    } else {
      PeerNotMentionedYet(prefix, item, front, other.id, wantsLoad);
      out := AppendPeer(reasons, item, other, wantsLoad);
    }
  }

  lemma ListedOnce(others: seq<Instance>, k: nat)
    requires ProperListing(others) && k < |others|
    ensures others[k].id != "" && Unlisted(others[..k], others[k].id)
    ensures others[..k + 1] == others[..k] + [others[k]]
  {
  }

  method CollectPeers(prefix: seq<Reason>, item: Instance, others: seq<Instance>, wantsLoad: bool)
    returns (out: seq<Reason>)
    requires ProperListing(others) && OnlyAbout(prefix, item.id)
    ensures out == prefix + AllPeerReasons(item, others, wantsLoad)
  {
    out := prefix;
    for k := 0 to |others|
      invariant out == prefix + AllPeerReasons(item, others[..k], wantsLoad)
    {
      ListedOnce(others, k);
      out := CollectPeer(out, prefix, item, others[..k], others[k], wantsLoad);
    }
    assert others[..|others|] == others;
  }

  method AppendOwn(reasons: seq<Reason>, owner: InstanceId, condition: bool, code: Code, blocking: bool)
    returns (out: seq<Reason>)
    requires code != NoCode && owner != "" && NoneAbout(reasons, "")
    ensures out == reasons + When(condition, About(code, blocking, owner)) && NoneAbout(out, "")
  {
    out := if condition then AppendReason(reasons, owner, code, blocking, "") else reasons;
  }

  lemma PrecheckPolicyReasonsSnoc(item: Instance, front: seq<Code>, last: Code)
    ensures PrecheckPolicyReasons(item, front + [last])
         == PrecheckPolicyReasons(item, front)
            + When(last == CommandOverrideForbidden || last == ScriptMountForbidden, About(last, true, item.id))
  {
    assert (front + [last])[..|front|] == front;
  }

  method CollectPrecheckPolicy(reasons: seq<Reason>, item: Instance, codes: seq<Code>)
    returns (out: seq<Reason>)
    requires item.id != "" && NoneAbout(reasons, "")
    ensures out == reasons + PrecheckPolicyReasons(item, codes) && NoneAbout(out, "")
  {
    out := reasons;
    for k := 0 to |codes|
      invariant out == reasons + PrecheckPolicyReasons(item, codes[..k]) && NoneAbout(out, "")
    {
      var code := codes[k];
      PrecheckPolicyReasonsSnoc(item, codes[..k], code);
      assert codes[..k + 1] == codes[..k] + [code];
      if code == CommandOverrideForbidden || code == ScriptMountForbidden {
        out := AppendOwn(out, item.id, true, code, true);
      }
    }
    assert codes[..|codes|] == codes;
  }

  method CollectManifest(reasons: seq<Reason>, item: Instance) returns (out: seq<Reason>)
    requires item.id != "" && NoneAbout(reasons, "")
    ensures out == reasons + ManifestReasons(item) && NoneAbout(out, "")
  {
    out := reasons;
    if item.manifest.Some? {
      var m := item.manifest.value;
      out := AppendOwn(out, item.id, !m.commandOverrideAllowed && m.overridesCommand, CommandOverrideForbidden, true);
      out := AppendOwn(out, item.id, !m.scriptMountAllowed && m.usesScript, ScriptMountForbidden, true);
    }
  }

  method HasBlocking(reasons: seq<Reason>) returns (blocking: bool)
    ensures blocking == AnyBlocking(reasons)
  {
    for k := 0 to |reasons|
      invariant forall j | 0 <= j < k :: !reasons[j].blocking
    {
      if reasons[k].blocking {
        return true;
      }
    }
    return false;
  }

  /** What is collected before the item's own policy reasons. */
  function FoundAroundItem(item: Instance, others: seq<Instance>, wantsLoad: bool): seq<Reason> {
    DriftReasons(item) + AllPeerReasons(item, others, wantsLoad)
  }

  lemma FoundAroundItemIsAboutSomeone(item: Instance, others: seq<Instance>, wantsLoad: bool)
    requires item.id != "" && ProperListing(others)
    ensures NoneAbout(FoundAroundItem(item, others, wantsLoad), "")
  {
    PeerReasonsMentionPeers(item, others, wantsLoad, "");
    NoneAboutConcat(DriftReasons(item), AllPeerReasons(item, others, wantsLoad), "");
  }

  method CollectOwn(reasons: seq<Reason>, item: Instance, signals: Signals, wantsLoad: bool)
    returns (out: seq<Reason>)
    requires item.id != "" && NoneAbout(reasons, "")
    ensures out == reasons + ManifestReasons(item)
                   + PrecheckPolicyReasons(item, item.precheck.reasons)
                   + OfflineReasons(item, signals, wantsLoad)
                   + StaleReasons(item, signals, wantsLoad)
  {
    out := CollectManifest(reasons, item);
    out := CollectPrecheckPolicy(out, item, item.precheck.reasons);
    out := AppendOwn(out, item.id, signals.known && !signals.online && wantsLoad, AgentOffline, true);
    out := AppendOwn(out, item.id, signals.stale && wantsLoad, ObservationStale, true);
  }

  /** On a proper listing the duplicate test never fires: what the loops collect is the plain
      concatenation. */
  method CollectReasons(item: Instance, others: seq<Instance>, target: Action, signals: Signals)
    returns (reasons: seq<Reason>)
    requires item.id != "" && ProperListing(others)
    ensures reasons == ConflictReasons(item, others, target, signals)
  {
    var wantsLoad := WantsLoad(item, target);
    var drifted := !item.desired.Blank? && !item.observed.Blank? && item.desired != item.observed;
    reasons := AppendOwn([], item.id, drifted, Drift, false);
    assert reasons == DriftReasons(item);
    reasons := CollectPeers(reasons, item, others, wantsLoad);
    FoundAroundItemIsAboutSomeone(item, others, wantsLoad);
    assert reasons == FoundAroundItem(item, others, wantsLoad);
    reasons := CollectOwn(reasons, item, signals, wantsLoad);
  }

  method EvaluateConflictSummary(
    item: Instance, others: seq<Instance>, target: Action, signals: Signals, now: Time)
    returns (summary: ConflictSummary)
    requires item.id != "" && ProperListing(others)
    ensures summary == ConflictSummaryOf(item, others, target, signals, now)
  {
    var reasons := CollectReasons(item, others, target, signals);
    var blocking := HasBlocking(reasons);
    var status := ConflictClear;
    if reasons != [] {
      status := if blocking then ConflictBlocked else ConflictWarning;
    }
    summary := ConflictSummary(status, blocking, reasons, now, FromController);
  }

  predicate MentionsMutex(reasons: seq<Reason>, id: InstanceId) {
    exists r :: r in reasons && r.code == KindMutex && r.related == id
  }

  /** A peer that keeps an idle item out of its slot. */
  predicate Rival(item: Instance, other: Instance) {
    Competes(item, other) && SameSlot(item, other)
  }

  lemma PeerMutexIff(item: Instance, other: Instance, wantsLoad: bool, id: InstanceId)
    ensures MentionsMutex(PeerReasons(item, other, wantsLoad), id)
       <==> other.id == id && Rival(item, other) && wantsLoad && !item.observed.Running?
  {
    if Rival(item, other) && wantsLoad && !item.observed.Running? {
      assert About(KindMutex, true, other.id) in PeerReasons(item, other, wantsLoad);
    }
  }

  lemma MentionsMutexConcat(a: seq<Reason>, b: seq<Reason>, id: InstanceId)
    ensures MentionsMutex(a + b, id) <==> MentionsMutex(a, id) || MentionsMutex(b, id)
  {
    forall r ensures r in a + b <==> r in a || r in b {}
  }

  /** Membership of the slot conflict, independent of order and position. */
  lemma {:induction false} AllPeersMutexIff(item: Instance, others: seq<Instance>, wantsLoad: bool, id: InstanceId)
    ensures MentionsMutex(AllPeerReasons(item, others, wantsLoad), id)
       <==> (wantsLoad && !item.observed.Running? && exists o :: o in others && o.id == id && Rival(item, o))
  {
    if others != [] {
      var front, last := others[..|others| - 1], others[|others| - 1];
      AllPeersMutexIff(item, front, wantsLoad, id);
      PeerMutexIff(item, last, wantsLoad, id);
      MentionsMutexConcat(AllPeerReasons(item, front, wantsLoad), PeerReasons(item, last, wantsLoad), id);
      assert others == front + [last];
    }
  }

  lemma {:induction false} PolicyNeverMutex(item: Instance, codes: seq<Code>, id: InstanceId)
    ensures !MentionsMutex(PrecheckPolicyReasons(item, codes), id)
  {
    if codes != [] {
      PolicyNeverMutex(item, codes[..|codes| - 1], id);
    }
  }

  lemma MentionsMutexSix(a: seq<Reason>, b: seq<Reason>, c: seq<Reason>, d: seq<Reason>, e: seq<Reason>, f: seq<Reason>,
                         id: InstanceId)
    ensures MentionsMutex(a + b + c + d + e + f, id)
       <==> || MentionsMutex(a, id) || MentionsMutex(b, id) || MentionsMutex(c, id)
            || MentionsMutex(d, id) || MentionsMutex(e, id) || MentionsMutex(f, id)
  {
    MentionsMutexConcat(a, b, id);
    MentionsMutexConcat(a + b, c, id);
    MentionsMutexConcat(a + b + c, d, id);
    MentionsMutexConcat(a + b + c + d, e, id);
    MentionsMutexConcat(a + b + c + d + e, f, id);
  }

  /** The slot conflict is reported about exactly the rivals, and only to an idle instance that
      wants to load. */
  lemma ConflictMutexIff(item: Instance, others: seq<Instance>, target: Action, signals: Signals, id: InstanceId)
    ensures MentionsMutex(ConflictReasons(item, others, target, signals), id)
       <==> (WantsLoad(item, target) && !item.observed.Running?
             && exists o :: o in others && o.id == id && Rival(item, o))
  {
    var wantsLoad := WantsLoad(item, target);
    AllPeersMutexIff(item, others, wantsLoad, id);
    PolicyNeverMutex(item, item.precheck.reasons, id);
    MentionsMutexSix(DriftReasons(item), AllPeerReasons(item, others, wantsLoad), ManifestReasons(item),
                     PrecheckPolicyReasons(item, item.precheck.reasons), OfflineReasons(item, signals, wantsLoad),
                     StaleReasons(item, signals, wantsLoad), id);
  }

  lemma AmongSix(a: seq<Reason>, b: seq<Reason>, c: seq<Reason>, d: seq<Reason>, e: seq<Reason>, f: seq<Reason>,
                 r: Reason)
    ensures r in a + b + c + d + e + f <==> r in a || r in b || r in c || r in d || r in e || r in f
  {
  }

  lemma ReasonIsOneOf(item: Instance, others: seq<Instance>, target: Action, signals: Signals, r: Reason)
    ensures var wantsLoad := WantsLoad(item, target);
            r in ConflictReasons(item, others, target, signals)
            <==> || r in DriftReasons(item) || r in AllPeerReasons(item, others, wantsLoad)
                 || r in ManifestReasons(item) || r in PrecheckPolicyReasons(item, item.precheck.reasons)
                 || r in OfflineReasons(item, signals, wantsLoad) || r in StaleReasons(item, signals, wantsLoad)
  {
    var wantsLoad := WantsLoad(item, target);
    AmongSix(DriftReasons(item), AllPeerReasons(item, others, wantsLoad), ManifestReasons(item),
             PrecheckPolicyReasons(item, item.precheck.reasons), OfflineReasons(item, signals, wantsLoad),
             StaleReasons(item, signals, wantsLoad), r);
  }

  // ---- Port conflicts ----

  predicate SomePeerCauses(item: Instance, others: seq<Instance>, wantsLoad: bool, r: Reason) {
    exists o :: o in others && r in PeerReasons(item, o, wantsLoad)
  }

  lemma SomePeerNext(item: Instance, front: seq<Instance>, last: Instance, wantsLoad: bool, r: Reason)
    ensures SomePeerCauses(item, front + [last], wantsLoad, r)
       <==> SomePeerCauses(item, front, wantsLoad, r) || r in PeerReasons(item, last, wantsLoad)
  {
    var others := front + [last];
    forall o | o in front ensures o in others {}
    assert last in others;
  }

  /** The peers' reasons are exactly those each single peer causes. */
  lemma {:induction false} PeerReasonIff(item: Instance, others: seq<Instance>, wantsLoad: bool, r: Reason)
    ensures r in AllPeerReasons(item, others, wantsLoad) <==> SomePeerCauses(item, others, wantsLoad, r)
  {
    if others != [] {
      var front, last := others[..|others| - 1], others[|others| - 1];
      assert others == front + [last];
      PeerReasonIff(item, front, wantsLoad, r);
      SomePeerNext(item, front, last, wantsLoad, r);
    }
  }

  lemma {:induction false} PolicyIsNotAboutPorts(item: Instance, codes: seq<Code>)
    ensures forall r | r in PrecheckPolicyReasons(item, codes) :: r.code != PortConflict
  {
    if codes != [] {
      PolicyIsNotAboutPorts(item, codes[..|codes| - 1]);
    }
  }

  lemma PortReasonOfPeer(item: Instance, other: Instance, wantsLoad: bool, r: Reason)
    requires r.code == PortConflict
    ensures r in PeerReasons(item, other, wantsLoad)
       <==> (Competes(item, other) && SharePort(PortsOf(item), PortsOf(other))
             && r == About(PortConflict, wantsLoad, other.id))
  {
  }

  /** A port conflict is reported about exactly the competing instances that share a host port; it
      blocks exactly those who want to load. */
  lemma PortConflictIff(item: Instance, others: seq<Instance>, target: Action, signals: Signals, r: Reason)
    requires r.code == PortConflict
    ensures r in ConflictReasons(item, others, target, signals)
       <==> exists o :: o in others && Competes(item, o) && SharePort(PortsOf(item), PortsOf(o))
                        && r == About(PortConflict, WantsLoad(item, target), o.id)
  {
    var wantsLoad := WantsLoad(item, target);
    PeerReasonIff(item, others, wantsLoad, r);
    PolicyIsNotAboutPorts(item, item.precheck.reasons);
    forall o | o in others
      ensures r in PeerReasons(item, o, wantsLoad)
         <==> (Competes(item, o) && SharePort(PortsOf(item), PortsOf(o)) && r == About(PortConflict, wantsLoad, o.id))
    {
      PortReasonOfPeer(item, o, wantsLoad, r);
    }
    OnlyPeersAboutPorts(item, others, target, signals, r);
  }

  lemma OnlyPeersAboutPorts(item: Instance, others: seq<Instance>, target: Action, signals: Signals, r: Reason)
    requires r.code == PortConflict
    ensures r in ConflictReasons(item, others, target, signals)
       <==> r in AllPeerReasons(item, others, WantsLoad(item, target))
  {
    PolicyIsNotAboutPorts(item, item.precheck.reasons);
    ReasonIsOneOf(item, others, target, signals, r);
  }

  // ---- Conflicts about the agent ----

  predicate AboutAgent(r: Reason) {
    r.code == AgentOffline || r.code == ObservationStale
  }

  lemma PeerIsNotAboutAgent(item: Instance, other: Instance, wantsLoad: bool)
    ensures forall r | r in PeerReasons(item, other, wantsLoad) :: !AboutAgent(r)
  {
  }

  lemma {:induction false} PeersAreNotAboutAgent(item: Instance, others: seq<Instance>, wantsLoad: bool)
    ensures forall r | r in AllPeerReasons(item, others, wantsLoad) :: !AboutAgent(r)
  {
    if others != [] {
      PeersAreNotAboutAgent(item, others[..|others| - 1], wantsLoad);
      PeerIsNotAboutAgent(item, others[|others| - 1], wantsLoad);
    }
  }

  lemma {:induction false} PolicyIsNotAboutAgent(item: Instance, codes: seq<Code>)
    ensures forall r | r in PrecheckPolicyReasons(item, codes) :: !AboutAgent(r)
  {
    if codes != [] {
      PolicyIsNotAboutAgent(item, codes[..|codes| - 1]);
    }
  }

  /** Whoever wants to load conflicts with an agent known to be offline, and with observations that
      are stale; nobody else does. */
  lemma AgentConflictIff(item: Instance, others: seq<Instance>, target: Action, signals: Signals, r: Reason)
    requires AboutAgent(r)
    ensures r in ConflictReasons(item, others, target, signals)
       <==> && WantsLoad(item, target) && r == About(r.code, true, item.id)
            && if r.code == AgentOffline then signals.known && !signals.online else signals.stale
  {
    PeersAreNotAboutAgent(item, others, WantsLoad(item, target));
    PolicyIsNotAboutAgent(item, item.precheck.reasons);
    ReasonIsOneOf(item, others, target, signals, r);
  }
}
