/** The runtime precheck an agent runs: what it looks at, the order it records its findings in,
    and what it reports. */
module PrecheckTask {
  import opened Wrappers
  import opened RuntimeTypes
  import opened Text
  import opened Conflict
  import opened Gating
  import opened Decisions
  import opened Reconcile
  import opened InstanceLaws
  import opened PrecheckVerdict

  datatype ContainerProbe = NotAsked | ProbeFailed | Missing | ContainerStopped | ContainerRunning

  /** What the resolved task context and the node say. Texts are trimmed, lists carry no blanks
      or repeats, types and formats are folded to lower case. */
  datatype Facts = Facts(
    modelPathExists: bool,
    mountRules: seq<string>, manifestMounts: seq<string>, existingPaths: set<string>,
    requiredEnv: seq<string>, envOverrides: map<string, string>, nodeEnv: map<string, string>,
    scriptMode: bool, scriptRef: string,
    commandOverride: seq<string>, commandOverrideAllowed: Option<bool>, scriptMountAllowed: Option<bool>,
    modelType: string, supportedTypes: seq<string>, modelFormat: string, supportedFormats: seq<string>,
    container: ContainerProbe, endpointPort: string, endpointOpen: Option<bool>,
    hostPorts: seq<string>, portsInUse: set<string>,
    customBundle: bool, manifestId: string, manifestVersion: string, runtimeKind: string, templateType: string)

  const MODEL_PATH_MISSING := OtherCode("model_path_missing")
  const BINDING_INVALID := OtherCode("binding_invalid")
  const REQUIRED_ENV_MISSING := OtherCode("required_env_missing")
  const SCRIPT_MISSING := OtherCode("script_missing")
  const TYPE_MISMATCH := OtherCode("model_type_mismatch")
  const FORMAT_MISMATCH := OtherCode("model_format_mismatch")
  const MANIFEST_INVALID := OtherCode("manifest_invalid")

  // ---- What is wrong, declaratively ----

  /** Host and container path of a mount rule. */
  function RuleHost(rule: string): string {
    Trim(Split(rule, ':')[0])
  }

  function RuleContainer(rule: string): string {
    var parts := Split(rule, ':');
    if |parts| < 2 then "" else Trim(parts[1])
  }

  function DropSlashes(s: string): string {
    if s != "" && s[|s| - 1] == '/' then DropSlashes(s[..|s| - 1]) else s
  }

  predicate Under(path: string, mount: string) {
    mount != "" && (path == mount || DropSlashes(mount) + "/" <= path)
  }

  /** A path is under a mount that does not end in a slash exactly if it is the mount or goes on with
      a slash: a sibling whose name merely begins alike is not under it. */
  lemma UnderIff(path: string, mount: string)
    requires mount != "" && mount[|mount| - 1] != '/'
    ensures Under(path, mount) <==> path == mount || exists rest :: path == mount + "/" + rest
  {
    if mount + "/" <= path {
      assert path == mount + "/" + path[|mount| + 1..];
    }
  }

  lemma SiblingIsNotUnder(mount: string, c: char, rest: string)
    requires mount != "" && mount[|mount| - 1] != '/' && c != '/'
    ensures !Under(mount + [c] + rest, mount)
  {
    assert (mount + [c] + rest)[|mount|] == c;
    assert (mount + "/")[|mount|] == '/';
  }

  /** Slashes behind a mount make no difference to what lies under it. */
  lemma TrailingSlashIsIgnored(path: string, mount: string)
    requires path != mount + "/" && mount != ""
    ensures Under(path, mount + "/") <==> DropSlashes(mount) + "/" <= path
  {
    assert (mount + "/")[..|mount|] == mount;
  }

  lemma RootMountTakesAll(path: string)
    ensures Under(path, "/") <==> path != "" && path[0] == '/'
  {
    assert DropSlashes("/") == "" by {
      assert "/"[..0] == "";
    }
    assert "" + "/" == "/";
  }

  /** A rule is read as host, container and possibly a mode. */
  lemma RuleReads(host: string, container: string, mode: string)
    requires ':' !in host && ':' !in container && ':' !in mode
    ensures RuleHost(host) == Trim(host) && RuleContainer(host) == ""
    ensures var rule := host + [':'] + container; RuleHost(rule) == Trim(host) && RuleContainer(rule) == Trim(container)
    ensures var rule := host + [':'] + (container + [':'] + mode);
            RuleHost(rule) == Trim(host) && RuleContainer(rule) == Trim(container)
  {
    SplitWithoutSeparator(host, ':');
    SplitWithoutSeparator(container, ':');
    SplitWithoutSeparator(mode, ':');
    SplitAtSeparator(host, ':', container);
    SplitAtSeparator(container, ':', mode);
    SplitAtSeparator(host, ':', container + [':'] + mode);
  }

  predicate RuleMissing(f: Facts, rule: string) {
    RuleHost(rule) != "" && RuleHost(rule) !in f.existingPaths
  }

  predicate RuleInvalid(f: Facts, rule: string) {
    && f.manifestMounts != [] && RuleContainer(rule) != ""
    && !exists m :: m in f.manifestMounts && Under(RuleContainer(rule), m)
  }

  predicate MountsBroken(f: Facts) {
    exists rule :: rule in f.mountRules && (RuleMissing(f, rule) || RuleInvalid(f, rule))
  }

  predicate EnvSet(f: Facts, key: string) {
    (key in f.envOverrides && f.envOverrides[key] != "") || (key in f.nodeEnv && f.nodeEnv[key] != "")
  }

  predicate EnvMissing(f: Facts) {
    exists key :: key in f.requiredEnv && !EnvSet(f, key)
  }

  predicate ScriptRequired(f: Facts) {
    f.scriptMode || f.scriptRef != ""
  }

  predicate ScriptMissing(f: Facts) {
    ScriptRequired(f) && (f.scriptRef == "" || f.scriptRef !in f.existingPaths)
  }

  predicate Supported(what: string, supported: seq<string>) {
    supported == [] || (what != "" && (what in supported || "unknown" in supported))
  }

  predicate PortTaken(f: Facts, port: string) {
    port in f.portsInUse && !(f.container.ContainerRunning? && f.endpointPort == port)
  }

  predicate CommandForbidden(f: Facts) {
    f.commandOverrideAllowed == Some(false) && f.commandOverride != []
  }

  predicate ScriptForbidden(f: Facts) {
    f.scriptMountAllowed == Some(false) && ScriptRequired(f)
  }

  predicate PortsClash(f: Facts) {
    exists p :: p in f.hostPorts && PortTaken(f, p)
  }

  predicate BundleIncomplete(f: Facts) {
    f.customBundle && (f.manifestId == "" || f.manifestVersion == "" || f.runtimeKind == "" || f.templateType == "")
  }

  predicate EarlyProblem(f: Facts, c: Code) {
    || (c == MODEL_PATH_MISSING && !f.modelPathExists)
    || (c == BINDING_INVALID && MountsBroken(f))
    || (c == REQUIRED_ENV_MISSING && EnvMissing(f))
    || (c == SCRIPT_MISSING && ScriptMissing(f))
  }

  predicate PolicyProblem(f: Facts, c: Code) {
    || (c == CommandOverrideForbidden && CommandForbidden(f))
    || (c == ScriptMountForbidden && ScriptForbidden(f))
  }

  predicate CompatibilityProblem(f: Facts, c: Code) {
    || (c == TYPE_MISMATCH && !Supported(f.modelType, f.supportedTypes))
    || (c == FORMAT_MISMATCH && !Supported(f.modelFormat, f.supportedFormats))
  }

  predicate LateProblem(f: Facts, c: Code) {
    || (c == PortConflict && PortsClash(f))
    || (c == MANIFEST_INVALID && BundleIncomplete(f))
  }

  /** The problem a code stands for. */
  predicate Problem(f: Facts, c: Code) {
    EarlyProblem(f, c) || PolicyProblem(f, c) || CompatibilityProblem(f, c) || LateProblem(f, c)
  }

  /** A precheck finds nothing wrong exactly when the model is there, every mount is there and
      allowed, every variable is set, nothing forbidden is used, the model suits the runtime, no port
      is taken by anybody else, and a custom bundle is complete. */
  lemma NothingWrongIff(f: Facts)
    ensures (forall c :: !Problem(f, c))
       <==> && f.modelPathExists
            && (forall rule | rule in f.mountRules ::
                  && (RuleHost(rule) == "" || RuleHost(rule) in f.existingPaths)
                  && (f.manifestMounts == [] || RuleContainer(rule) == ""
                      || exists m :: m in f.manifestMounts && Under(RuleContainer(rule), m)))
            && (forall key | key in f.requiredEnv ::
                  (key in f.envOverrides && f.envOverrides[key] != "") || (key in f.nodeEnv && f.nodeEnv[key] != ""))
            && (f.scriptRef == "" ==> !f.scriptMode) && (f.scriptRef != "" ==> f.scriptRef in f.existingPaths)
            && (f.commandOverrideAllowed == Some(false) ==> f.commandOverride == [])
            && (f.scriptMountAllowed == Some(false) ==> !f.scriptMode && f.scriptRef == "")
            && (f.supportedTypes == []
                || (f.modelType != "" && (f.modelType in f.supportedTypes || "unknown" in f.supportedTypes)))
            && (f.supportedFormats == []
                || (f.modelFormat != "" && (f.modelFormat in f.supportedFormats || "unknown" in f.supportedFormats)))
            && (forall port | port in f.hostPorts ::
                  port !in f.portsInUse || (f.container == ContainerRunning && f.endpointPort == port))
            && (f.customBundle ==>
                  f.manifestId != "" && f.manifestVersion != "" && f.runtimeKind != "" && f.templateType != "")
  {
    if forall c :: !Problem(f, c) {
      assert !Problem(f, MODEL_PATH_MISSING) && !Problem(f, BINDING_INVALID) && !Problem(f, REQUIRED_ENV_MISSING);
      assert !Problem(f, SCRIPT_MISSING) && !Problem(f, CommandOverrideForbidden) && !Problem(f, ScriptMountForbidden);
      assert !Problem(f, TYPE_MISMATCH) && !Problem(f, FORMAT_MISMATCH);
      assert !Problem(f, PortConflict) && !Problem(f, MANIFEST_INVALID);
    }
  }

  // ---- What is recorded ----

  /** A blocking check, and the reason that goes with its failure. */
  function Verdict(name: string, ok: bool, c: Code): seq<Call> {
    if ok then [AddCheck(name, Passed, true)] else [AddCheck(name, Failed, true), AddReason(c, true)]
  }

  function MountCalls(f: Facts): seq<Call> {
    if f.mountRules == [] then
      [AddCheck("binding_mount_rules", if f.manifestMounts != [] then Warned else Passed, false)]
    else Verdict("binding_mount_rules", !MountsBroken(f), BINDING_INVALID)
  }

  function ScriptCalls(f: Facts): seq<Call> {
    if !ScriptRequired(f) then [AddCheck("script_ref", Skipped, false)]
    else Verdict("script_ref", !ScriptMissing(f), SCRIPT_MISSING)
  }

  function PolicyCalls(f: Facts): seq<Call> {
    Verdict("command_override_policy", !CommandForbidden(f), CommandOverrideForbidden)
    + Verdict("script_mount_policy", !ScriptForbidden(f), ScriptMountForbidden)
  }

  function CompatibilityCalls(f: Facts): seq<Call> {
    Verdict("model_type_compatibility", Supported(f.modelType, f.supportedTypes), TYPE_MISMATCH)
    + Verdict("model_format_compatibility", Supported(f.modelFormat, f.supportedFormats), FORMAT_MISMATCH)
  }

  /** The container and its endpoint are looked at, but never fail the precheck. */
  function RuntimeCalls(f: Facts): seq<Call> {
    ContainerCalls(f) + EndpointCalls(f)
  }

  function ContainerCalls(f: Facts): seq<Call> {
    if f.container.NotAsked? then []
    else [AddCheck("runtime_container_inspect", if f.container.ContainerRunning? then Passed else Warned, false)]
  }

  function EndpointCalls(f: Facts): seq<Call> {
    if f.endpointOpen.None? then []
    else [AddCheck("runtime_endpoint_port_check", if f.endpointOpen.value then Passed else Warned, false)]
  }

  function BundleCalls(f: Facts): seq<Call> {
    if !f.customBundle then [AddCheck("custom_bundle_manifest_minimal", Skipped, false)]
    else Verdict("custom_bundle_manifest_minimal", !BundleIncomplete(f), MANIFEST_INVALID)
  }

  function EarlyCalls(f: Facts): seq<Call> {
    Verdict("model_path_exists", f.modelPathExists, MODEL_PATH_MISSING) + MountCalls(f)
    + Verdict("required_env", !EnvMissing(f), REQUIRED_ENV_MISSING) + ScriptCalls(f)
  }

  function LateCalls(f: Facts): seq<Call> {
    RuntimeCalls(f)
    + Verdict("manifest_port_conflicts", !PortsClash(f), PortConflict)
    + BundleCalls(f)
  }

  function AllCalls(f: Facts): seq<Call> {
    EarlyCalls(f) + PolicyCalls(f) + CompatibilityCalls(f) + LateCalls(f)
  }

  // ---- Failure lists ----

  function Blocking(reasons: seq<Reason>): seq<Reason> {
    if reasons == [] then []
    else (if reasons[0].blocking then [reasons[0]] else []) + Blocking(reasons[1..])
  }

  /** The failure list of a report: the blocking codes, blanks and repeats dropped. */
  function FailureCodes(reasons: seq<Reason>): seq<Code> {
    Codes(Blocking(reasons))
  }

  method ExtractPrecheckFailureCodes(reasons: seq<Reason>) returns (out: seq<Code>)
    ensures out == FailureCodes(reasons)
  {
    out := [];
    for k := 0 to |reasons|
      invariant CodesOnto(out, Blocking(reasons[k..])) == FailureCodes(reasons)
    {
      assert reasons[k..][0] == reasons[k] && reasons[k..][1..] == reasons[k + 1..];
      if reasons[k].blocking {
        BlockingHead(reasons[k..]);
        if reasons[k].code != NoCode && reasons[k].code !in out {
          out := out + [reasons[k].code];
        }
      } else {
        assert Blocking(reasons[k..]) == Blocking(reasons[k + 1..]);
      }
    }
    assert reasons[|reasons|..] == [];
  }

  lemma BlockingHead(reasons: seq<Reason>)
    requires reasons != [] && reasons[0].blocking
    ensures Blocking(reasons)[0] == reasons[0] && Blocking(reasons)[1..] == Blocking(reasons[1..])
    ensures Blocking(reasons) != []
  {
  }

  lemma {:induction false} BlockingIff(reasons: seq<Reason>, r: Reason)
    ensures r in Blocking(reasons) <==> r in reasons && r.blocking
  {
    if reasons != [] {
      BlockingIff(reasons[1..], r);
      assert reasons == [reasons[0]] + reasons[1..];
    }
  }

  /** Nothing but the blocking codes is listed, none is missing, none appears twice. */
  lemma FailureCodesIff(reasons: seq<Reason>, c: Code)
    ensures c in FailureCodes(reasons) <==> c != NoCode && exists r :: r in reasons && r.blocking && r.code == c
    ensures forall j, k | 0 <= j < k < |FailureCodes(reasons)| :: FailureCodes(reasons)[j] != FailureCodes(reasons)[k]
  {
    CodesOntoIff([], Blocking(reasons), c);
    CodesOntoDistinct([], Blocking(reasons));
    forall r ensures r in Blocking(reasons) <==> r in reasons && r.blocking {
      BlockingIff(reasons, r);
    }
  }

  // ---- What the recorded calls amount to ----

  predicate Raises(calls: seq<Call>, c: Code) {
    AddReason(c, true) in calls
  }

  /** Reasons block and carry a code; a failed check blocks, and some reason goes with it. */
  predicate TidyCall(x: Call) {
    match x
    case AddReason(code, blocking) => blocking && code != NoCode
    case AddCheck(_, outcome, blocking) => outcome.Failed? ==> blocking
  }

  ghost predicate Tidy(calls: seq<Call>) {
    && (forall x | x in calls :: TidyCall(x))
    && ((exists x :: x in calls && x.AddCheck? && x.outcome.Failed?) ==> exists x :: x in calls && x.AddReason?)
  }

  function When(problem: bool, c: Code): set<Code> {
    if problem then {c} else {}
  }

  ghost predicate RaisesOnly(calls: seq<Call>, codes: set<Code>) {
    Tidy(calls) && forall c :: Raises(calls, c) <==> c in codes
  }

  lemma Concat(a: seq<Call>, b: seq<Call>, s: set<Code>, t: set<Code>)
    requires RaisesOnly(a, s) && RaisesOnly(b, t)
    ensures RaisesOnly(a + b, s + t)
  {
    assert forall x :: x in a + b <==> x in a || x in b;
    if x :| x in a && x.AddReason? {
      assert x in a + b;
    }
    if x :| x in b && x.AddReason? {
      assert x in a + b;
    }
  }

  lemma VerdictRaises(name: string, ok: bool, code: Code)
    requires code != NoCode
    ensures RaisesOnly(Verdict(name, ok, code), When(!ok, code))
  {
    assert !ok ==> AddReason(code, true) in Verdict(name, ok, code);
  }

  lemma HarmlessRaisesNothing(name: string, outcome: CheckOutcome, code: Code)
    requires !outcome.Failed?
    ensures RaisesOnly([AddCheck(name, outcome, false)], When(false, code))
  {
  }

  lemma MountRaises(f: Facts)
    ensures RaisesOnly(MountCalls(f), When(MountsBroken(f), BINDING_INVALID))
  {
    if f.mountRules == [] {
      HarmlessRaisesNothing("binding_mount_rules", if f.manifestMounts != [] then Warned else Passed, BINDING_INVALID);
    } else {
      VerdictRaises("binding_mount_rules", !MountsBroken(f), BINDING_INVALID);
    }
  }

  lemma ScriptRaises(f: Facts)
    ensures RaisesOnly(ScriptCalls(f), When(ScriptMissing(f), SCRIPT_MISSING))
  {
    if !ScriptRequired(f) {
      HarmlessRaisesNothing("script_ref", Skipped, SCRIPT_MISSING);
    } else {
      VerdictRaises("script_ref", !ScriptMissing(f), SCRIPT_MISSING);
    }
  }

  lemma BundleRaises(f: Facts)
    ensures RaisesOnly(BundleCalls(f), When(BundleIncomplete(f), MANIFEST_INVALID))
  {
    if !f.customBundle {
      HarmlessRaisesNothing("custom_bundle_manifest_minimal", Skipped, MANIFEST_INVALID);
    } else {
      VerdictRaises("custom_bundle_manifest_minimal", !BundleIncomplete(f), MANIFEST_INVALID);
    }
  }

  lemma RuntimeRaisesNothing(f: Facts)
    ensures RaisesOnly(RuntimeCalls(f), {})
  {
  }

  function EarlyCodes(f: Facts): set<Code> {
    When(!f.modelPathExists, MODEL_PATH_MISSING) + When(MountsBroken(f), BINDING_INVALID)
    + When(EnvMissing(f), REQUIRED_ENV_MISSING) + When(ScriptMissing(f), SCRIPT_MISSING)
  }

  lemma EarlyRaises(f: Facts)
    ensures RaisesOnly(EarlyCalls(f), EarlyCodes(f))
  {
    var a, b := Verdict("model_path_exists", f.modelPathExists, MODEL_PATH_MISSING), MountCalls(f);
    var c := Verdict("required_env", !EnvMissing(f), REQUIRED_ENV_MISSING);
    var s, t := When(!f.modelPathExists, MODEL_PATH_MISSING), When(MountsBroken(f), BINDING_INVALID);
    var u := When(EnvMissing(f), REQUIRED_ENV_MISSING);
    VerdictRaises("model_path_exists", f.modelPathExists, MODEL_PATH_MISSING);
    MountRaises(f);
    VerdictRaises("required_env", !EnvMissing(f), REQUIRED_ENV_MISSING);
    ScriptRaises(f);
    Concat(a, b, s, t);
    Concat(a + b, c, s + t, u);
    Concat(a + b + c, ScriptCalls(f), s + t + u, When(ScriptMissing(f), SCRIPT_MISSING));
  }

  function PolicyCodes(f: Facts): set<Code> {
    When(CommandForbidden(f), CommandOverrideForbidden) + When(ScriptForbidden(f), ScriptMountForbidden)
  }

  lemma PolicyRaises(f: Facts)
    ensures RaisesOnly(PolicyCalls(f), PolicyCodes(f))
  {
    VerdictRaises("command_override_policy", !CommandForbidden(f), CommandOverrideForbidden);
    VerdictRaises("script_mount_policy", !ScriptForbidden(f), ScriptMountForbidden);
    Concat(Verdict("command_override_policy", !CommandForbidden(f), CommandOverrideForbidden),
           Verdict("script_mount_policy", !ScriptForbidden(f), ScriptMountForbidden),
           When(CommandForbidden(f), CommandOverrideForbidden), When(ScriptForbidden(f), ScriptMountForbidden));
  }

  function CompatibilityCodes(f: Facts): set<Code> {
    When(!Supported(f.modelType, f.supportedTypes), TYPE_MISMATCH)
    + When(!Supported(f.modelFormat, f.supportedFormats), FORMAT_MISMATCH)
  }

  lemma CompatibilityRaises(f: Facts)
    ensures RaisesOnly(CompatibilityCalls(f), CompatibilityCodes(f))
  {
    var x, y := Supported(f.modelType, f.supportedTypes), Supported(f.modelFormat, f.supportedFormats);
    VerdictRaises("model_type_compatibility", x, TYPE_MISMATCH);
    VerdictRaises("model_format_compatibility", y, FORMAT_MISMATCH);
    Concat(Verdict("model_type_compatibility", x, TYPE_MISMATCH), Verdict("model_format_compatibility", y, FORMAT_MISMATCH),
           When(!x, TYPE_MISMATCH), When(!y, FORMAT_MISMATCH));
  }

  function LateCodes(f: Facts): set<Code> {
    When(PortsClash(f), PortConflict) + When(BundleIncomplete(f), MANIFEST_INVALID)
  }

  lemma LateRaises(f: Facts)
    ensures RaisesOnly(LateCalls(f), LateCodes(f))
  {
    var ports := Verdict("manifest_port_conflicts", !PortsClash(f), PortConflict);
    RuntimeRaisesNothing(f);
    VerdictRaises("manifest_port_conflicts", !PortsClash(f), PortConflict);
    BundleRaises(f);
    Concat(RuntimeCalls(f), ports, {}, When(PortsClash(f), PortConflict));
    assert {} + When(PortsClash(f), PortConflict) == When(PortsClash(f), PortConflict);
    Concat(RuntimeCalls(f) + ports, BundleCalls(f), When(PortsClash(f), PortConflict),
           When(BundleIncomplete(f), MANIFEST_INVALID));
  }

  function AllCodes(f: Facts): set<Code> {
    EarlyCodes(f) + PolicyCodes(f) + CompatibilityCodes(f) + LateCodes(f)
  }

  lemma AllCallsRaise(f: Facts)
    ensures RaisesOnly(AllCalls(f), AllCodes(f))
  {
    EarlyRaises(f);
    PolicyRaises(f);
    CompatibilityRaises(f);
    LateRaises(f);
    var e, p, c := EarlyCodes(f), PolicyCodes(f), CompatibilityCodes(f);
    Concat(EarlyCalls(f), PolicyCalls(f), e, p);
    Concat(EarlyCalls(f) + PolicyCalls(f), CompatibilityCalls(f), e + p, c);
    Concat(EarlyCalls(f) + PolicyCalls(f) + CompatibilityCalls(f), LateCalls(f), e + p + c, LateCodes(f));
  }

  lemma WhenIff(problem: bool, code: Code, c: Code)
    ensures c in When(problem, code) <==> problem && c == code
  {
  }

  lemma EarlyCodesIff(f: Facts, c: Code)
    ensures c in EarlyCodes(f) <==> EarlyProblem(f, c)
  {
    WhenIff(!f.modelPathExists, MODEL_PATH_MISSING, c);
    WhenIff(MountsBroken(f), BINDING_INVALID, c);
    WhenIff(EnvMissing(f), REQUIRED_ENV_MISSING, c);
    WhenIff(ScriptMissing(f), SCRIPT_MISSING, c);
  }

  lemma PolicyCodesIff(f: Facts, c: Code)
    ensures c in PolicyCodes(f) <==> PolicyProblem(f, c)
  {
    WhenIff(CommandForbidden(f), CommandOverrideForbidden, c);
    WhenIff(ScriptForbidden(f), ScriptMountForbidden, c);
  }

  lemma CompatibilityCodesIff(f: Facts, c: Code)
    ensures c in CompatibilityCodes(f) <==> CompatibilityProblem(f, c)
  {
    WhenIff(!Supported(f.modelType, f.supportedTypes), TYPE_MISMATCH, c);
    WhenIff(!Supported(f.modelFormat, f.supportedFormats), FORMAT_MISMATCH, c);
  }

  lemma LateCodesIff(f: Facts, c: Code)
    ensures c in LateCodes(f) <==> LateProblem(f, c)
  {
    WhenIff(PortsClash(f), PortConflict, c);
    WhenIff(BundleIncomplete(f), MANIFEST_INVALID, c);
  }

  lemma InUnion(c: Code, a: set<Code>, b: set<Code>, d: set<Code>, e: set<Code>)
    ensures c in a + b + d + e <==> c in a || c in b || c in d || c in e
  {
  }

  lemma CodesAreProblems(f: Facts, c: Code)
    ensures c in AllCodes(f) <==> Problem(f, c)
  {
    EarlyCodesIff(f, c);
    PolicyCodesIff(f, c);
    CompatibilityCodesIff(f, c);
    LateCodesIff(f, c);
    InUnion(c, EarlyCodes(f), PolicyCodes(f), CompatibilityCodes(f), LateCodes(f));
  }

  lemma RaisedIffMember(calls: seq<Call>, codes: set<Code>, c: Code)
    requires RaisesOnly(calls, codes)
    ensures Tidy(calls) && (Raises(calls, c) <==> c in codes)
  {
  }

  /** What is recorded is exactly what is wrong. */
  lemma AllRaises(f: Facts, c: Code)
    ensures Tidy(AllCalls(f)) && (Raises(AllCalls(f), c) <==> Problem(f, c))
  {
    AllCallsRaise(f);
    RaisedIffMember(AllCalls(f), AllCodes(f), c);
    CodesAreProblems(f, c);
  }

  lemma {:induction false} ReasonsOfIff(calls: seq<Call>, r: Reason)
    ensures r in ReasonsOf(calls)
       <==> AddReason(r.code, r.blocking) in calls && r == Reason(r.code, r.blocking, FromAgent, "")
  {
    if calls != [] {
      ReasonsOfIff(calls[..|calls| - 1], r);
      assert calls == calls[..|calls| - 1] + [calls[|calls| - 1]];
    }
  }

  /** Of tidy calls the verdict fails exactly when a reason was recorded, and the failure list
      names exactly the codes recorded. */
  lemma TidyVerdict(calls: seq<Call>, c: Code)
    requires Tidy(calls)
    ensures c in FailureCodes(ReasonsOf(calls)) <==> Raises(calls, c)
    ensures Worst(calls).Fatal? <==> FailureCodes(ReasonsOf(calls)) != []
  {
    var codes := FailureCodes(ReasonsOf(calls));
    forall x ensures x in codes <==> Raises(calls, x) {
      FailureCodesIff(ReasonsOf(calls), x);
      forall r | r in ReasonsOf(calls) ensures AddReason(r.code, r.blocking) in calls {
        ReasonsOfIff(calls, r);
      }
      ReasonsOfIff(calls, Reason(x, true, FromAgent, ""));
      assert Raises(calls, x) ==> TidyCall(AddReason(x, true));
    }
    WorstIff(calls);
    if Worst(calls).Fatal? {
      var worst :| worst in calls && SeverityOf(worst) == Fatal;
      var reason :| reason in calls && reason.AddReason?;
      assert TidyCall(reason) && Raises(calls, reason.code);
      assert reason.code in codes;
    }
    if codes != [] {
      assert codes[0] in codes;
      assert SeverityOf(AddReason(codes[0], true)) == Fatal;
    }
  }

  // ---- The task itself ----

  method Record(p: Precheck, name: string, ok: bool, c: Code)
    requires p.Valid()
    modifies p
    ensures p.Valid() && p.calls == old(p.calls) + Verdict(name, ok, c)
  {
    if ok {
      p.Check(name, Passed, true);
    } else {
      p.Check(name, Failed, true);
      p.Because(c, true);
    }
  }

  method PathAllowed(container: string, mounts: seq<string>) returns (allowed: bool)
    ensures allowed <==> container == "" || exists m :: m in mounts && Under(container, m)
  {
    if container == "" {
      return true;
    }
    for k := 0 to |mounts|
      invariant forall j | 0 <= j < k :: !Under(container, mounts[j])
    {
      if Under(container, mounts[k]) {
        return true;
      }
    }
    return false;
  }

  /** Collects the rules with a missing host path and those outside the manifest's mounts. */
  method SortMountRules(f: Facts) returns (missing: seq<string>, invalid: seq<string>)
    ensures missing == [] && invalid == [] <==> !MountsBroken(f)
  {
    missing, invalid := [], [];
    for k := 0 to |f.mountRules|
      invariant missing == [] && invalid == []
           <==> forall j | 0 <= j < k :: !RuleMissing(f, f.mountRules[j]) && !RuleInvalid(f, f.mountRules[j])
    {
      var rule := f.mountRules[k];
      var host, container := RuleHost(rule), RuleContainer(rule);
      if host != "" && host !in f.existingPaths {
        missing := missing + [host];
      }
      var allowed := PathAllowed(container, f.manifestMounts);
      if f.manifestMounts != [] && container != "" && !allowed {
        invalid := invalid + [rule];
      }
    }
  }

  method CheckMounts(p: Precheck, f: Facts)
    requires p.Valid()
    modifies p
    ensures p.Valid() && p.calls == old(p.calls) + MountCalls(f)
  {
    var missing, invalid := SortMountRules(f);
    if f.mountRules == [] {
      if f.manifestMounts != [] {
        p.Check("binding_mount_rules", Warned, false);
      } else {
        p.Check("binding_mount_rules", Passed, false);
      }
    } else {
      Record(p, "binding_mount_rules", missing == [] && invalid == [], BINDING_INVALID);
    }
  }

  method MissingEnv(f: Facts) returns (missing: seq<string>)
    ensures missing == [] <==> !EnvMissing(f)
  {
    missing := [];
    for k := 0 to |f.requiredEnv|
      invariant missing == [] <==> forall j | 0 <= j < k :: EnvSet(f, f.requiredEnv[j])
    {
      var key := f.requiredEnv[k];
      if !((key in f.envOverrides && f.envOverrides[key] != "") || (key in f.nodeEnv && f.nodeEnv[key] != "")) {
        missing := missing + [key];
      }
    }
  }

  method CheckScript(p: Precheck, f: Facts)
    requires p.Valid()
    modifies p
    ensures p.Valid() && p.calls == old(p.calls) + ScriptCalls(f)
  {
    if f.scriptMode || f.scriptRef != "" {
      Record(p, "script_ref", f.scriptRef != "" && f.scriptRef in f.existingPaths, SCRIPT_MISSING);
    } else {
      p.Check("script_ref", Skipped, false);
    }
  }

  method CheckPolicies(p: Precheck, f: Facts)
    requires p.Valid()
    modifies p
    ensures p.Valid() && p.calls == old(p.calls) + PolicyCalls(f)
  {
    ghost var before := p.calls;
    var commandAllowed := f.commandOverrideAllowed.GetOr(true);
    Record(p, "command_override_policy", commandAllowed || f.commandOverride == [], CommandOverrideForbidden);
    var scriptAllowed := f.scriptMountAllowed.GetOr(true);
    Record(p, "script_mount_policy", scriptAllowed || !(f.scriptMode || f.scriptRef != ""), ScriptMountForbidden);
    Regroup(before, [], [], Verdict("command_override_policy", commandAllowed || f.commandOverride == [],
                                    CommandOverrideForbidden),
            Verdict("script_mount_policy", scriptAllowed || !(f.scriptMode || f.scriptRef != ""), ScriptMountForbidden));
  }

  method CheckCompatibility(p: Precheck, f: Facts)
    requires p.Valid()
    modifies p
    ensures p.Valid() && p.calls == old(p.calls) + CompatibilityCalls(f)
  {
    var typeOk, formatOk := true, true;
    if f.supportedTypes != [] {
      typeOk := f.modelType in f.supportedTypes || "unknown" in f.supportedTypes;
      if f.modelType == "" {
        typeOk := false;
      }
    }
    if f.supportedFormats != [] {
      formatOk := f.modelFormat in f.supportedFormats || "unknown" in f.supportedFormats;
      if f.modelFormat == "" {
        formatOk := false;
      }
    }
    Record(p, "model_type_compatibility", typeOk, TYPE_MISMATCH);
    Record(p, "model_format_compatibility", formatOk, FORMAT_MISMATCH);
  }

  method CheckContainer(p: Precheck, f: Facts)
    requires p.Valid()
    modifies p
    ensures p.Valid() && p.calls == old(p.calls) + ContainerCalls(f)
  {
    if !f.container.NotAsked? {
      p.Check("runtime_container_inspect", if f.container.ContainerRunning? then Passed else Warned, false);
    }
  }

  method CheckEndpoint(p: Precheck, f: Facts)
    requires p.Valid()
    modifies p
    ensures p.Valid() && p.calls == old(p.calls) + EndpointCalls(f)
  {
    if f.endpointOpen.Some? {
      p.Check("runtime_endpoint_port_check", if f.endpointOpen.value then Passed else Warned, false);
    }
  }

  method ConflictingPorts(f: Facts) returns (ports: seq<string>)
    ensures ports == [] <==> !PortsClash(f)
  {
    ports := [];
    for k := 0 to |f.hostPorts|
      invariant ports == [] <==> forall j | 0 <= j < k :: !PortTaken(f, f.hostPorts[j])
    {
      var port := f.hostPorts[k];
      if port in f.portsInUse {
        if !(f.container.ContainerRunning? && f.endpointPort == port) {
          ports := ports + [port];
        }
      }
    }
  }

  method CheckBundle(p: Precheck, f: Facts)
    requires p.Valid()
    modifies p
    ensures p.Valid() && p.calls == old(p.calls) + BundleCalls(f)
  {
    if f.customBundle {
      var missing: seq<string> := [];
      if f.manifestId == "" { missing := missing + ["manifest_id"]; }
      if f.manifestVersion == "" { missing := missing + ["manifest_version"]; }
      if f.runtimeKind == "" { missing := missing + ["runtime_kind"]; }
      if f.templateType == "" { missing := missing + ["template_type"]; }
      Record(p, "custom_bundle_manifest_minimal", missing == [], MANIFEST_INVALID);
    } else {
      p.Check("custom_bundle_manifest_minimal", Skipped, false);
    }
  }

  lemma Regroup(before: seq<Call>, a: seq<Call>, b: seq<Call>, c: seq<Call>, d: seq<Call>)
    ensures before + a + b + c + d == before + (a + b + c + d)
  {
  }

  method CheckEarly(p: Precheck, f: Facts)
    requires p.Valid()
    modifies p
    ensures p.Valid() && p.calls == old(p.calls) + EarlyCalls(f)
  {
    ghost var before := p.calls;
    Record(p, "model_path_exists", f.modelPathExists, MODEL_PATH_MISSING);
    CheckMounts(p, f);
    var missing := MissingEnv(f);
    Record(p, "required_env", missing == [], REQUIRED_ENV_MISSING);
    CheckScript(p, f);
    Regroup(before, Verdict("model_path_exists", f.modelPathExists, MODEL_PATH_MISSING), MountCalls(f),
            Verdict("required_env", !EnvMissing(f), REQUIRED_ENV_MISSING), ScriptCalls(f));
  }

  method CheckLate(p: Precheck, f: Facts)
    requires p.Valid()
    modifies p
    ensures p.Valid() && p.calls == old(p.calls) + LateCalls(f)
  {
    ghost var before := p.calls;
    CheckContainer(p, f);
    CheckEndpoint(p, f);
    var ports := ConflictingPorts(f);
    Record(p, "manifest_port_conflicts", ports == [], PortConflict);
    CheckBundle(p, f);
    Regroup(before, ContainerCalls(f), EndpointCalls(f), Verdict("manifest_port_conflicts", !PortsClash(f), PortConflict),
            BundleCalls(f));
  }

  method RecordAll(p: Precheck, f: Facts)
    requires p.Valid()
    modifies p
    ensures p.Valid() && p.calls == old(p.calls) + AllCalls(f)
  {
    ghost var before := p.calls;
    CheckEarly(p, f);
    CheckPolicies(p, f);
    CheckCompatibility(p, f);
    CheckLate(p, f);
    Regroup(before, EarlyCalls(f), PolicyCalls(f), CompatibilityCalls(f), LateCalls(f));
  }

  /** A failure list that names exactly what is wrong, each once. */
  ghost predicate NamesProblems(f: Facts, failures: seq<Code>) {
    && (forall c :: c in failures <==> Problem(f, c)) && NoCode !in failures
    && forall j, k | 0 <= j < k < |failures| :: failures[j] != failures[k]
  }

  lemma NoFailureIffNoProblem(f: Facts, failures: seq<Code>)
    requires NamesProblems(f, failures)
    ensures failures == [] <==> !exists c :: Problem(f, c)
  {
    assert failures != [] ==> failures[0] in failures;
  }

  /** What the recorded calls amount to: a failure list that names the problems, and a gate that
      closes exactly when there are any. */
  ghost predicate TellsProblems(f: Facts, calls: seq<Call>) {
    && NamesProblems(f, FailureCodes(ReasonsOf(calls)))
    && (Worst(calls).Fatal? <==> FailureCodes(ReasonsOf(calls)) != [])
    && (AnyBlocking(ReasonsOf(calls)) ==> Worst(calls).Fatal?)
  }

  method RecordChecks(p: Precheck, f: Facts)
    requires p.Valid() && p.calls == []
    modifies p
    ensures p.Valid() && TellsProblems(f, p.calls)
  {
    RecordAll(p, f);
    assert [] + AllCalls(f) == AllCalls(f);
    ReportMeaning(f);
  }

  /** The task fails exactly when something blocking is wrong. It then gates, its status is
      failed, and its failure list names exactly what is wrong. */
  method ExecuteRuntimePrecheckTask(f: Facts) returns (success: bool, result: PrecheckResult, failures: seq<Code>)
    ensures success <==> !exists c :: Problem(f, c)
    ensures result.gating == !success && (result.status == PrecheckFailed <==> !success)
    ensures (failures == [] <==> success) && NamesProblems(f, failures)
    ensures !result.status.PrecheckUnset? && BlockingReasonsImplyGate(result) && NoCode !in failures
  {
    var p := new Precheck();
    RecordChecks(p, f);
    if p.gating {
      p.status := PrecheckFailed;
    }
    result := PrecheckResult(p.status, p.gating, p.reasons, f.hostPorts);
    failures := ExtractPrecheckFailureCodes(p.reasons);
    success := !p.gating;
    NoFailureIffNoProblem(f, failures);
  }

  predicate BlockingReasonsImplyGate(r: PrecheckResult) {
    AnyBlocking(r.reasons) ==> r.gating
  }

  lemma RaisedReportMeaning(calls: seq<Call>, codes: set<Code>)
    requires RaisesOnly(calls, codes)
    ensures var failures := FailureCodes(ReasonsOf(calls));
            && (forall c :: c in failures <==> c in codes) && NoCode !in failures
            && (Worst(calls).Fatal? <==> failures != [])
            && (AnyBlocking(ReasonsOf(calls)) ==> Worst(calls).Fatal?)
            && forall j, k | 0 <= j < k < |failures| :: failures[j] != failures[k]
  {
    var failures := FailureCodes(ReasonsOf(calls));
    forall c ensures (c in failures <==> c in codes) && (c in failures ==> c != NoCode) {
      RaisedIffMember(calls, codes, c);
      TidyVerdict(calls, c);
      FailureCodesIff(ReasonsOf(calls), c);
    }
    TidyVerdict(calls, NoCode);
    FailureCodesIff(ReasonsOf(calls), NoCode);
    if r :| r in ReasonsOf(calls) && r.blocking {
      ReasonsOfIff(calls, r);
      assert TidyCall(AddReason(r.code, true));
      FailureCodesIff(ReasonsOf(calls), r.code);
    }
  }

  /** What the recorded calls of the task mean for its report. */
  lemma ReportMeaning(f: Facts)
    ensures TellsProblems(f, AllCalls(f))
  {
    AllCallsRaise(f);
    RaisedReportMeaning(AllCalls(f), AllCodes(f));
    forall c ensures c in AllCodes(f) <==> Problem(f, c) {
      CodesAreProblems(f, c);
    }
  }

  /** The report the agent sends for it is one the controller's guarantees are proved for, and
      it gates the instance exactly when the task failed. */
  lemma PrecheckReportIsGuaranteed(result: PrecheckResult, failures: seq<Code>, success: bool, eventAt: Time,
                                   node: NodeId, ports: seq<string>, state: Phase)
    requires eventAt != 0 && result.gating == !success && !result.status.PrecheckUnset?
    requires BlockingReasonsImplyGate(result) && NoCode !in failures
    ensures var r := Report(RuntimePrecheck(Some(result), failures), success, eventAt, node, ports, state);
            && ProperReport(r) && GuaranteedReport(r)
            && (GatingPrecheck(r) <==> !success) && (ClearingPrecheck(r) <==> success)
  {
  }
}
