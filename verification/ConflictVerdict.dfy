/** What the conflicts and the gating decision of a reconcile say, in terms of the instance, the
    others and the agent: when a slot is taken, when a conflict blocks, and which status follows. */
module ConflictVerdict {
  import opened Wrappers
  import opened RuntimeTypes
  import opened Conflict
  import opened ConflictRepeats
  import opened Gating
  import opened Decisions
  import opened Reconcile
  import opened InstanceLaws

  // ---- Whose presence counts ----

  /** An instance has a claim on its slot: it runs, it should run and is not known to be stopped, or
      it has a plan to load or start that is neither done nor refused. */
  predicate Claims(o: Instance) {
    || o.observed == Running
    || (o.desired == Running && o.observed != Stopped)
    || (o.lastPlan.plan.Some?
        && o.lastPlan.plan.value.action in {Load, LoadStart, Start}
        && o.lastPlan.plan.value.status in {Planned, Executing, Deferred})
  }

  /** Another instance on the same node that has a claim there. */
  predicate Neighbour(i: Instance, o: Instance) {
    o.id != i.id && i.nodeId != "" && o.nodeId == i.nodeId && Claims(o)
  }

  predicate SameKnownKind(i: Instance, o: Instance) {
    Kind(i) == Kind(o) && Kind(i) != "" && Kind(i) != UNKNOWN_KIND
  }

  lemma NeighbourMeaning(i: Instance, o: Instance)
    ensures Competes(i, o) <==> Neighbour(i, o)
    ensures Rival(i, o) <==> Neighbour(i, o) && SameKnownKind(i, o)
  {
  }

  /** The host ports of an instance: its own, or its manifest's while it has none. */
  predicate UsesPort(i: Instance, port: string) {
    port in i.hostPorts || (i.hostPorts == [] && i.manifest.Some? && port in i.manifest.value.hostPorts)
  }

  ghost predicate PortsMeet(i: Instance, o: Instance) {
    exists port :: UsesPort(i, port) && UsesPort(o, port)
  }

  lemma PortsMeetMeaning(i: Instance, o: Instance)
    ensures SharePort(PortsOf(i), PortsOf(o)) <==> PortsMeet(i, o)
  {
    forall port ensures (port in PortsOf(i) <==> UsesPort(i, port)) && (port in PortsOf(o) <==> UsesPort(o, port)) {}
  }

  // ---- Which peers block ----

  /** What a neighbour blocks, by its slot, its model or its ports. */
  ghost predicate PeerBlocks(i: Instance, o: Instance, asks: bool) {
    && Neighbour(i, o) && asks
    && (PortsMeet(i, o) || (i.observed != Running && (SameKnownKind(i, o) || o.modelId == i.modelId)))
  }

  lemma PeerBlocksIff(i: Instance, o: Instance, wantsLoad: bool)
    ensures AnyBlocking(PeerReasons(i, o, wantsLoad)) <==> PeerBlocks(i, o, wantsLoad)
    ensures PeerReasons(i, o, wantsLoad) != [] <==> PeerBlocks(i, o, wantsLoad) || (Neighbour(i, o) && PortsMeet(i, o))
  {
    NeighbourMeaning(i, o);
    PortsMeetMeaning(i, o);
    if Competes(i, o) {
      var idle := wantsLoad && !i.observed.Running?;
      BlockingWhen(SharePort(PortsOf(i), PortsOf(o)), About(PortConflict, wantsLoad, o.id));
      BlockingWhen(SameSlot(i, o) && idle, About(KindMutex, true, o.id));
      BlockingWhen(o.modelId == i.modelId && idle, About(DuplicateModel, true, o.id));
      BlockingConcat(When(SharePort(PortsOf(i), PortsOf(o)), About(PortConflict, wantsLoad, o.id)),
                     When(SameSlot(i, o) && idle, About(KindMutex, true, o.id)));
      BlockingConcat(When(SharePort(PortsOf(i), PortsOf(o)), About(PortConflict, wantsLoad, o.id))
                     + When(SameSlot(i, o) && idle, About(KindMutex, true, o.id)),
                     When(o.modelId == i.modelId && idle, About(DuplicateModel, true, o.id)));
    }
  }

  lemma BlockingWhen(condition: bool, r: Reason)
    ensures AnyBlocking(When(condition, r)) <==> condition && r.blocking
  {
    assert condition ==> r in When(condition, r);
  }

  lemma BlockingConcat(a: seq<Reason>, b: seq<Reason>)
    ensures AnyBlocking(a + b) <==> AnyBlocking(a) || AnyBlocking(b)
  {
    forall r ensures r in a + b <==> r in a || r in b {}
  }

  ghost predicate SomeBlocks(i: Instance, others: seq<Instance>, asks: bool) {
    exists o :: o in others && PeerBlocks(i, o, asks)
  }

  ghost predicate SomeShares(i: Instance, others: seq<Instance>) {
    exists o :: o in others && Neighbour(i, o) && PortsMeet(i, o)
  }

  lemma OneMorePeer(i: Instance, front: seq<Instance>, last: Instance, asks: bool)
    ensures SomeBlocks(i, front + [last], asks) <==> SomeBlocks(i, front, asks) || PeerBlocks(i, last, asks)
    ensures SomeShares(i, front + [last]) <==> SomeShares(i, front) || (Neighbour(i, last) && PortsMeet(i, last))
  {
    var others := front + [last];
    forall o | o in front ensures o in others {}
    assert last in others;
  }

  lemma {:induction false} AllPeersBlockIff(i: Instance, others: seq<Instance>, wantsLoad: bool)
    ensures AnyBlocking(AllPeerReasons(i, others, wantsLoad)) <==> SomeBlocks(i, others, wantsLoad)
    ensures AllPeerReasons(i, others, wantsLoad) != [] <==> SomeBlocks(i, others, wantsLoad) || SomeShares(i, others)
  {
    if others != [] {
      var front, last := others[..|others| - 1], others[|others| - 1];
      assert others == front + [last];
      AllPeersBlockIff(i, front, wantsLoad);
      PeerBlocksIff(i, last, wantsLoad);
      BlockingConcat(AllPeerReasons(i, front, wantsLoad), PeerReasons(i, last, wantsLoad));
      OneMorePeer(i, front, last, wantsLoad);
    }
  }

  // ---- Which of the instance's own conflicts block ----

  /** The manifest, or the agent's precheck, forbids what the binding does. */
  ghost predicate PolicyForbids(i: Instance, codes: seq<Code>) {
    exists code :: PolicyCode(code) && (ManifestForbids(i, code) || code in codes)
  }

  lemma PolicyBlocksIff(i: Instance, codes: seq<Code>)
    ensures AnyBlocking(PolicyReasons(i, codes)) <==> PolicyForbids(i, codes)
    ensures PolicyReasons(i, codes) != [] <==> PolicyForbids(i, codes)
  {
    var rs := PolicyReasons(i, codes);
    PolicyReasonsShape(i, codes);
    forall code | PolicyCode(code)
      ensures About(code, true, i.id) in rs <==> ManifestForbids(i, code) || code in codes
    {
      PolicyReasonsCount(i, codes, code);
      assert About(code, true, i.id) in rs <==> multiset(rs)[About(code, true, i.id)] > 0;
    }
    if rs != [] {
      assert rs[0] in rs && PolicyCode(rs[0].code);
    }
    if PolicyForbids(i, codes) {
      var code :| PolicyCode(code) && (ManifestForbids(i, code) || code in codes);
      assert About(code, true, i.id) in rs;
    }
  }

  predicate ContactLost(signals: Signals) {
    (signals.known && !signals.online) || signals.stale
  }

  lemma ContactBlocksIff(i: Instance, signals: Signals, wantsLoad: bool)
    ensures AnyBlocking(Contact(i, signals, wantsLoad)) <==> wantsLoad && ContactLost(signals)
    ensures Contact(i, signals, wantsLoad) != [] <==> wantsLoad && ContactLost(signals)
  {
    BlockingConcat(OfflineReasons(i, signals, wantsLoad), StaleReasons(i, signals, wantsLoad));
    BlockingWhen(signals.known && !signals.online && wantsLoad, About(AgentOffline, true, i.id));
    BlockingWhen(signals.stale && wantsLoad, About(ObservationStale, true, i.id));
  }

  predicate Drifts(i: Instance) {
    i.desired != Blank && i.observed != Blank && i.desired != i.observed
  }

  /** When some conflict blocks, and when there is any at all. */
  lemma ConflictsIff(i: Instance, others: seq<Instance>, target: Action, signals: Signals)
    ensures var asks := WantsLoad(i, target);
            var reasons := ConflictReasons(i, others, target, signals);
            && (AnyBlocking(reasons)
                <==> || SomeBlocks(i, others, asks)
                     || PolicyForbids(i, i.precheck.reasons) || (asks && ContactLost(signals)))
            && (reasons == []
                <==> && !Drifts(i) && !PolicyForbids(i, i.precheck.reasons) && !(asks && ContactLost(signals))
                     && !SomeBlocks(i, others, asks) && !SomeShares(i, others))
  {
    var asks := WantsLoad(i, target);
    var drift, peers := DriftReasons(i), AllPeerReasons(i, others, asks);
    var policy, contact := PolicyReasons(i, i.precheck.reasons), Contact(i, signals, asks);
    ConflictReasonsInParts(i, others, target, signals);
    BlockingWhen(Drifts(i), About(Drift, false, i.id));
    AllPeersBlockIff(i, others, asks);
    PolicyBlocksIff(i, i.precheck.reasons);
    ContactBlocksIff(i, signals, asks);
    BlockingConcat(drift, peers);
    BlockingConcat(policy, contact);
    BlockingConcat(drift + peers, policy + contact);
  }

  // ---- In a reconcile ----

  /** Something is wrong with what is heard from the agent of an instance's node. */
  predicate OutOfTouch(i: Instance, env: Env) {
    && AgentKnown(i, env)
    && (i.nodeId !in env.onlineNodes
        || if LastHeard(i) == 0 then i.desired == Running else LastHeard(i) + env.staleAfter < env.now)
  }

  /** The agent's precheck, or the manifest, forbids what the instance's binding does. */
  ghost predicate Forbidden(i: Instance) {
    exists code :: PolicyCode(code) && (ManifestForbids(i, code) || PrecheckNames(i, code))
  }

  /** A conflict blocks a reconcile exactly when a neighbour blocks the load, by slot, model or port,
      the binding does what is forbidden, or a load is asked for without word from the agent. */
  ghost predicate Blocked(i: Instance, others: seq<Instance>, trigger: Trigger, env: Env) {
    var p := Prepared(i, env);
    || SomeBlocks(p, others, AsksToLoad(p, trigger))
    || Forbidden(i) || (AsksToLoad(p, trigger) && OutOfTouch(p, env))
  }

  lemma PreparedPeers(i: Instance, env: Env, o: Instance, asks: bool)
    ensures PeerBlocks(Prechecked(i, env), o, asks) <==> PeerBlocks(Prepared(i, env), o, asks)
    ensures Neighbour(Prechecked(i, env), o) <==> Neighbour(Prepared(i, env), o)
    ensures PortsMeet(Prechecked(i, env), o) <==> PortsMeet(Prepared(i, env), o)
  {
    forall port ensures UsesPort(Prechecked(i, env), port) <==> UsesPort(Prepared(i, env), port) {}
  }

  lemma PreparedPolicy(i: Instance, env: Env)
    ensures PolicyForbids(Prechecked(i, env), Prechecked(i, env).precheck.reasons) <==> Forbidden(i)
  {
    forall code | PolicyCode(code)
      ensures ManifestForbids(Prechecked(i, env), code) == ManifestForbids(i, code)
      ensures code in Prechecked(i, env).precheck.reasons <==> PrecheckNames(i, code)
    {
      PrecheckCodesIff(i, env, code);
    }
  }

  lemma PreparedContact(i: Instance, env: Env)
    ensures ContactLost(SignalsOf(Prepared(i, env), env)) <==> OutOfTouch(Prepared(i, env), env)
  {
  }

  /** The conflict verdict of a reconcile: it blocks exactly as said, and is clear exactly when there
      is nothing, not even a drift or a shared port. */
  lemma ConflictVerdictExact(i: Instance, others: seq<Instance>, trigger: Trigger, env: Env)
    ensures var c := Reconciled(i, others, trigger, env).conflict;
            var p := Prepared(i, env);
            && (c.blocking <==> Blocked(i, others, trigger, env))
            && (c.status == ConflictBlocked <==> c.blocking)
            && (c.status == ConflictClear
                <==> !c.blocking && !Drifts(p) && !SomeShares(p, others))
            && (c.status == ConflictWarning <==> !c.blocking && c.status != ConflictClear)
  {
    var p, item := Prepared(i, env), Prechecked(i, env);
    var target := TargetAction(p.desired, p.observed, trigger);
    ConflictsIff(item, others, target, SignalsOf(p, env));
    LoaderMeaning(p, trigger);
    PreparedPolicy(i, env);
    PreparedContact(i, env);
    forall o
      ensures PeerBlocks(item, o, AsksToLoad(p, trigger)) <==> PeerBlocks(p, o, AsksToLoad(p, trigger))
      ensures (Neighbour(item, o) && PortsMeet(item, o)) <==> (Neighbour(p, o) && PortsMeet(p, o))
    {
      PreparedPeers(i, env, o, AsksToLoad(p, trigger));
    }
  }

  // ---- The gating status ----

  lemma KeptCodeIff(kept: seq<Reason>, more: seq<Reason>, code: Code)
    requires code != NoCode
    ensures (exists r :: r in KeepAll(kept, more) && r.code == code)
       <==> (exists r :: r in kept && r.code == code) || exists r :: r in more && r.code == code
  {
    if r :| r in KeepAll(kept, more) && r.code == code {
      KeptIff(kept, more, r);
    }
    if r :| r in kept && r.code == code {
      KeptIff(kept, more, r);
    }
    if r :| r in more && r.code == code {
      var k :| 0 <= k < |more| && more[k] == r;
      KeyedIff(kept, more, r);
      assert SameKey(more[k], r);
      assert Keyed(KeepAll(kept, more), r);
    }
  }

  /** The gating verdict: allowed exactly when allowed, deferred exactly when refused while somebody
      holds the slot, or the precheck says so, and else blocked. */
  lemma GatingVerdictExact(i: Instance, others: seq<Instance>, trigger: Trigger, env: Env)
    requires ProperListing(others)
    ensures var g := Reconciled(i, others, trigger, env).gating;
            var p := Prepared(i, env);
            var precheck := Judge(i, others, trigger, env).precheck;
            && (g.status == GatingAllowed <==> g.allowed)
            && (g.status == GatingDeferred
                <==> && !g.allowed
                     && ((AsksToLoad(p, trigger) && !p.observed.Running? && Rivalled(i, others))
                         || exists r :: r in precheck.reasons && r.code == KindMutex))
            && (g.status == GatingBlocked <==> !g.allowed && g.status != GatingDeferred)
  {
    var v := Judge(i, others, trigger, env);
    var first := KeepAll([], v.precheck.reasons);
    KeptCodeIff([], v.precheck.reasons, KindMutex);
    KeptCodeIff(first, v.conflict.reasons, KindMutex);
    SomeoneToReleaseIff(i, others, trigger, env);
    MutexNamesSomebody(i, others, trigger, env);
  }

  /** Every slot conflict names an instance. */
  lemma MutexNamesSomebody(i: Instance, others: seq<Instance>, trigger: Trigger, env: Env)
    requires ProperListing(others)
    ensures var reasons := Judge(i, others, trigger, env).conflict.reasons;
            (exists r :: r in reasons && r.code == KindMutex) <==> exists id :: id != "" && MentionsMutex(reasons, id)
  {
    var reasons := Judge(i, others, trigger, env).conflict.reasons;
    if r :| r in reasons && r.code == KindMutex {
      assert MentionsMutex(reasons, r.related);
      JudgedMutexIff(i, others, trigger, env, r.related);
    }
  }

  // ---- So an idle instance gets its load ----

  /** An instance that should run and does not is granted its load by its next reconcile exactly when
      neither its precheck gates nor anything blocks. */
  lemma IdleIsGrantedIff(i: Instance, others: seq<Instance>, trigger: Trigger, env: Env)
    requires ProperListing(others) && Sound(i) && Guaranteed(i)
    requires i.desired == Running && i.observed != Running && trigger != TaskStop
    ensures HoldsLoadGrant(Reconciled(i, others, trigger, env))
       <==> !i.precheck.gating && !Blocked(i, others, trigger, env)
  {
    PrecheckCarriesOver(i, env);
    PlanFollowsTarget(i, others, trigger, env);
    RefusedIff(i, others, trigger, env);
    TargetMeaning(Prepared(i, env).desired, Prepared(i, env).observed, trigger);
    ConflictVerdictExact(i, others, trigger, env);
  }
}
