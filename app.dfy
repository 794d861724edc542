/**
 * The startup of the webhook server, cmd/app/webhook.go: the positional
 * argument check, validate-then-run, the setup manager whose listers and
 * managers are assigned only once their caches report synced, the parallel
 * cache-sync join, the fail-fast order of `Run`'s steps, and the rule that
 * the admission routes are registered only after the certificate rotator
 * signals readiness.
 *
 * What the cluster, the informers, the rotator and the server do is not part
 * of this model: each step's outcome is an input (an `Environment`), and the
 * goroutines are replaced by an explicit order of events.
 */
module App {
  import opened Wrappers
  import Options
  import Cert

  // ------------------------------------------------------------------
  // Command line
  // ------------------------------------------------------------------

  /** The message of the `Args` check, without the command path and arguments it quotes. */
  const TakesNoArgumentsError: Error := "does not take any arguments"

  /** The `Args` closure: refuse the command exactly when some positional argument is non-empty. */
  method CheckArgs(args: seq<string>) returns (err: Option<Error>)
    ensures err.Some? <==> exists i :: 0 <= i < |args| && |args[i]| > 0
    ensures err.Some? ==> err.value == TakesNoArgumentsError
  {
    for i := 0 to |args|
      invariant forall j :: 0 <= j < i ==> |args[j]| == 0
    {
      if |args[i]| > 0 {
        return Some(TakesNoArgumentsError);
      }
    }
    return None;
  }

  // ------------------------------------------------------------------
  // Setup manager
  // ------------------------------------------------------------------

  datatype GroupVersionResource = GroupVersionResource(group: string, version: string, resource: string)

  /** A lister over the informer cache of one resource. */
  datatype Lister = Lister(resource: GroupVersionResource)

  datatype OverrideManager = OverrideManager(copLister: Lister, opLister: Lister)
  datatype ValidateManager = ValidateManager(cvpLister: Lister)

  /** A policy interrupter, with the lister it was built with (nil if none was assigned yet). */
  datatype PolicyInterrupter = PolicyInterrupter(lister: Option<Lister>)

  const OverrideSyncError: Error := "failed to sync override policy"
  const ValidateSyncError: Error := "failed to sync validate policy"

  /** Reading a Go map yields false for a missing key: a resource absent from the result is not synced. */
  predicate Synced(result: map<GroupVersionResource, bool>, gvr: GroupVersionResource)
  {
    gvr in result && result[gvr]
  }

  /** The outcome of `setupOverridePolicyManager`'s sync check. */
  function OverrideSync(group: string, version: string, result: map<GroupVersionResource, bool>): (r: Option<Error>)
    ensures r.None? <==> Synced(result, GroupVersionResource(group, version, "overridepolicies"))
                         && Synced(result, GroupVersionResource(group, version, "clusteroverridepolicies"))
    ensures r.Some? ==> r.value == OverrideSyncError
    // a resource the informers never reported on counts as not synced
    ensures GroupVersionResource(group, version, "overridepolicies") !in result ==> r.Some?
    ensures GroupVersionResource(group, version, "clusteroverridepolicies") !in result ==> r.Some?
  {
    if Synced(result, GroupVersionResource(group, version, "overridepolicies"))
       && Synced(result, GroupVersionResource(group, version, "clusteroverridepolicies"))
    then None else Some(OverrideSyncError)
  }

  /** The outcome of `setupValidatePolicyManager`'s sync check. */
  function ValidateSync(group: string, version: string, result: map<GroupVersionResource, bool>): (r: Option<Error>)
    ensures r.None? <==> Synced(result, GroupVersionResource(group, version, "clustervalidatepolicies"))
    ensures r.Some? ==> r.value == ValidateSyncError
    ensures GroupVersionResource(group, version, "clustervalidatepolicies") !in result ==> r.Some?
  {
    if Synced(result, GroupVersionResource(group, version, "clustervalidatepolicies"))
    then None else Some(ValidateSyncError)
  }

  /** Every task index appears in the completion order, and nothing else does. */
  predicate CompletionOrder(order: seq<nat>, tasks: nat)
  {
    && (forall k :: 0 <= k < |order| ==> order[k] < tasks)
    && (forall i :: 0 <= i < tasks ==> i in order)
  }

  /** errgroup.Wait: the first error in the order the tasks finished, or nil. */
  function FirstError(results: seq<Option<Error>>, order: seq<nat>): (r: Option<Error>)
    requires forall k :: 0 <= k < |order| ==> order[k] < |results|
    ensures r.Some? ==> exists i :: 0 <= i < |results| && results[i] == r
    ensures r.None? <==> forall k :: 0 <= k < |order| ==> results[order[k]].None?
  {
    if |order| == 0 then None
    else if results[order[0]].Some? then results[order[0]]
    else FirstError(results, order[1..])
  }

  /** The join succeeds exactly when every task succeeded; otherwise it reports one of their errors. */
  lemma {:induction false} FirstErrorAllSucceed(results: seq<Option<Error>>, order: seq<nat>)
    requires CompletionOrder(order, |results|)
    ensures FirstError(results, order).None? <==> forall i :: 0 <= i < |results| ==> results[i].None?
  {
    if FirstError(results, order).None? {
      forall i | 0 <= i < |results| ensures results[i].None? {
        assert i in order;
        var k :| 0 <= k < |order| && order[k] == i;
      }
    }
  }


  /** setupManager: the listers, managers and interrupters that the startup steps assign. */
  class SetupManager {
    /** policyv1alpha1.SchemeGroupVersion, defined outside this model. */
    const group: string
    const version: string
    var drListerReady: bool
    var opLister: Option<Lister>
    var copLister: Option<Lister>
    var cvpLister: Option<Lister>
    var overrideManager: Option<OverrideManager>
    var validateManager: Option<ValidateManager>
    var interrupters: map<Options.GroupVersionKind, PolicyInterrupter>

    function Resource(resource: string): GroupVersionResource
      reads this
    {
      GroupVersionResource(group, version, resource)
    }

    function Kind(kind: string): Options.GroupVersionKind
      reads this
    {
      Options.GroupVersionKind(group, version, kind)
    }

    constructor (group: string, version: string)
      ensures this.group == group && this.version == version
      ensures !drListerReady && opLister == None && copLister == None && cvpLister == None
      ensures overrideManager == None && validateManager == None && interrupters == map[]
    {
      this.group, this.version := group, version;
      drListerReady := false;
      opLister, copLister, cvpLister := None, None, None;
      overrideManager, validateManager := None, None;
      interrupters := map[];
    }

    /** The listers and the manager `setupOverridePolicyManager` assigns once its resources are synced. */
    predicate OverrideAssigned()
      reads this
    {
      && opLister == Some(Lister(Resource("overridepolicies")))
      && copLister == Some(Lister(Resource("clusteroverridepolicies")))
      && overrideManager == Some(OverrideManager(copLister.value, opLister.value))
    }

    /** The lister and the manager `setupValidatePolicyManager` assigns once its resource is synced. */
    predicate ValidateAssigned()
      reads this
    {
      cvpLister == Some(Lister(Resource("clustervalidatepolicies"))) && validateManager == Some(ValidateManager(cvpLister.value))
    }

    /** The three interrupters `setupInterrupter` registers, each with the lister it is given. */
    function PolicyInterrupters(): map<Options.GroupVersionKind, PolicyInterrupter>
      reads this
    {
      map[Kind("OverridePolicy") := PolicyInterrupter(opLister),
          Kind("ClusterOverridePolicy") := PolicyInterrupter(copLister),
          Kind("ClusterValidatePolicy") := PolicyInterrupter(cvpLister)]
    }

    /** Every registered interrupter has its lister. */
    predicate InterruptersListed()
      reads this
    {
      forall kind :: kind in interrupters ==> interrupters[kind].lister.Some?
    }

    /** `init`: the dynamic resource lister is the one part that can fail. */
    method Init(drListerErr: Option<Error>) returns (err: Option<Error>)
      modifies this`drListerReady
      ensures err == drListerErr
      ensures drListerReady == drListerErr.None?
    {
      drListerReady := drListerErr.None?;
      return drListerErr;
    }

    /** `setupOverridePolicyManager`: both override-policy resources must be synced before anything is assigned. */
    method SetupOverridePolicyManager(result: map<GroupVersionResource, bool>) returns (err: Option<Error>)
      modifies this`opLister, this`copLister, this`overrideManager
      ensures err == OverrideSync(group, version, result)
      ensures err.Some? ==> opLister == old(opLister) && copLister == old(copLister) && overrideManager == old(overrideManager)
      ensures err.None? ==>
        && opLister == Some(Lister(Resource("overridepolicies")))
        && copLister == Some(Lister(Resource("clusteroverridepolicies")))
        && overrideManager == Some(OverrideManager(copLister.value, opLister.value))
    {
      var opGVR := Resource("overridepolicies");
      var copGVR := Resource("clusteroverridepolicies");
      if !Synced(result, opGVR) || !Synced(result, copGVR) {
        return Some(OverrideSyncError);
      }
      opLister := Some(Lister(opGVR));
      copLister := Some(Lister(copGVR));
      overrideManager := Some(OverrideManager(copLister.value, opLister.value));
      return None;
    }

    /** `setupValidatePolicyManager`: the validate-policy resource must be synced before anything is assigned. */
    method SetupValidatePolicyManager(result: map<GroupVersionResource, bool>) returns (err: Option<Error>)
      modifies this`cvpLister, this`validateManager
      ensures err == ValidateSync(group, version, result)
      ensures err.Some? ==> cvpLister == old(cvpLister) && validateManager == old(validateManager)
      ensures err.None? ==>
        cvpLister == Some(Lister(Resource("clustervalidatepolicies"))) && validateManager == Some(ValidateManager(cvpLister.value))
    {
      var cvpGVR := Resource("clustervalidatepolicies");
      if !Synced(result, cvpGVR) {
        return Some(ValidateSyncError);
      }
      cvpLister := Some(Lister(cvpGVR));
      validateManager := Some(ValidateManager(cvpLister.value));
      return None;
    }

    /**
     * `waitForCacheSync`: resource pre-caching and the two manager setups run
     * as three tasks joined by an errgroup; `order` is the order in which they finished.
     */
    method WaitForCacheSync(registerErr: Option<Error>, overrideResult: map<GroupVersionResource, bool>,
                            validateResult: map<GroupVersionResource, bool>, order: seq<nat>)
      returns (err: Option<Error>)
      requires CompletionOrder(order, 3)
      modifies this`opLister, this`copLister, this`overrideManager, this`cvpLister, this`validateManager
      ensures err == FirstError([registerErr, OverrideSync(group, version, overrideResult),
                                 ValidateSync(group, version, validateResult)], order)
      ensures err.None? <==> registerErr.None? && OverrideSync(group, version, overrideResult).None?
                             && ValidateSync(group, version, validateResult).None?
      ensures OverrideSync(group, version, overrideResult).None? ==> OverrideAssigned()
      ensures OverrideSync(group, version, overrideResult).Some? ==>
        overrideManager == old(overrideManager) && opLister == old(opLister) && copLister == old(copLister)
      ensures ValidateSync(group, version, validateResult).None? ==> ValidateAssigned()
      ensures ValidateSync(group, version, validateResult).Some? ==>
        validateManager == old(validateManager) && cvpLister == old(cvpLister)
    {
      var overrideErr := SetupOverridePolicyManager(overrideResult);
      var validateErr := SetupValidatePolicyManager(validateResult);
      var results := [registerErr, overrideErr, validateErr];
      FirstErrorAllSucceed(results, order);
      assert results[0] == registerErr && results[1] == overrideErr && results[2] == validateErr;
      err := FirstError(results, order);
    }

    /**
     * `setupInterrupter`: build the two template managers, register one
     * interrupter per policy kind with the listers assigned so far, then run their start-up.
     */
    method SetupInterrupter(overrideTemplateErr: Option<Error>, validateTemplateErr: Option<Error>,
                            startUpErr: Option<Error>) returns (err: Option<Error>)
      modifies this`interrupters
      ensures overrideTemplateErr.Some? ==> err == overrideTemplateErr && interrupters == old(interrupters)
      ensures overrideTemplateErr.None? && validateTemplateErr.Some? ==>
        err == validateTemplateErr && interrupters == old(interrupters)
      ensures overrideTemplateErr.None? && validateTemplateErr.None? ==>
        && err == startUpErr
        && interrupters == old(interrupters)[Kind("OverridePolicy") := PolicyInterrupter(opLister)]
                                            [Kind("ClusterOverridePolicy") := PolicyInterrupter(copLister)]
                                            [Kind("ClusterValidatePolicy") := PolicyInterrupter(cvpLister)]
    {
      if overrideTemplateErr.Some? {
        return overrideTemplateErr;
      }
      if validateTemplateErr.Some? {
        return validateTemplateErr;
      }
      interrupters := interrupters[Kind("OverridePolicy") := PolicyInterrupter(opLister)];
      interrupters := interrupters[Kind("ClusterOverridePolicy") := PolicyInterrupter(copLister)];
      interrupters := interrupters[Kind("ClusterValidatePolicy") := PolicyInterrupter(cvpLister)];
      return startUpErr;
    }
  }

  // ------------------------------------------------------------------
  // Run
  // ------------------------------------------------------------------

  /** The steps of `Run`, in the order they are taken. */
  datatype Step = NewManager | AddHealthzCheck | InitSetupManager | WaitForCacheSync
                | SetupInterrupter | SetupCertRotator | StartServer

  const RunSteps: seq<Step> :=
    [NewManager, AddHealthzCheck, InitSetupManager, WaitForCacheSync, SetupInterrupter, SetupCertRotator, StartServer]

  /** What the outside world answers to each step of `Run`. */
  datatype Environment = Environment(
    newManagerErr: Option<Error>,
    healthzErr: Option<Error>,
    drListerErr: Option<Error>,
    registerResourceErr: Option<Error>,
    overrideSyncResult: map<GroupVersionResource, bool>,
    validateSyncResult: map<GroupVersionResource, bool>,
    syncCompletionOrder: seq<nat>,
    overrideTemplateErr: Option<Error>,
    validateTemplateErr: Option<Error>,
    interrupterStartUpErr: Option<Error>,
    variables: map<string, string>,
    addRotator: Cert.CertRotatorConfig -> Option<Error>,
    startErr: Option<Error>)

  /** os.Getenv: an unset variable reads as the empty string. */
  function Getenv(variables: map<string, string>, name: string): string
  {
    if name in variables then variables[name] else ""
  }

  /** The certificate-rotator options `Run` builds from the environment and the certificate directory. */
  function CertOptions(certDir: string, variables: map<string, string>): (o: Cert.Settings)
    ensures o.certDir == certDir
    // a mutating and a validating webhook, both of a type the rotator supports
    ensures |o.webhooks| == 2 && o.webhooks[0].typ == Cert.Mutating && o.webhooks[1].typ == Cert.Validating
    ensures forall i :: 0 <= i < |o.webhooks| ==> Cert.Supported(o.webhooks[i].typ)
  {
    Cert.Settings(
      Getenv(variables, "NAMESPACE"),
      Getenv(variables, "SECRET"),
      certDir,
      Getenv(variables, "CA_NAME"),
      Getenv(variables, "SERVICE_NAME"),
      Getenv(variables, "CA_ORGANIZATION"),
      [Cert.WebhookInfo(Getenv(variables, "MUTATING_CONFIG"), Cert.Mutating),
       Cert.WebhookInfo(Getenv(variables, "VALIDATING_CONFIG"), Cert.Validating)])
  }

  /** With none of the variables set, the rotator serves the packaged service in the packaged namespace under both webhook names. */
  lemma CertOptionsUnsetEnvironment(certDir: string, variables: map<string, string>)
    requires forall name :: name in variables ==> variables[name] == ""
    ensures var c := Cert.RotatorConfig(CertOptions(certDir, variables));
      && c.dnsName == "kinitiras-webhook.kinitiras-system.svc"
      && c.secretKey == Cert.NamespacedName("kinitiras-webhook-cert", "kinitiras-system")
      && c.certDir == (if certDir == "" then "/tmp/k8s-webhook-server/serving-certs" else certDir)
      && c.webhooks == [Cert.RotatorWebhookInfo("kinitiras-webhook", Cert.RotatorMutating),
                        Cert.RotatorWebhookInfo("kinitiras-webhook", Cert.RotatorValidating)]
  {
    var o := CertOptions(certDir, variables);
    assert o.namespace == "" && o.secretName == "" && o.serviceName == "";
    assert o.webhooks == [Cert.WebhookInfo("", Cert.Mutating), Cert.WebhookInfo("", Cert.Validating)];
    var d := Cert.Defaulted(o);
    assert d.webhooks == [Cert.WebhookInfo("kinitiras-webhook", Cert.Mutating), Cert.WebhookInfo("kinitiras-webhook", Cert.Validating)];
    assert Cert.ConvertAll(d.webhooks)
        == [Cert.RotatorWebhookInfo("kinitiras-webhook", Cert.RotatorMutating),
            Cert.RotatorWebhookInfo("kinitiras-webhook", Cert.RotatorValidating)];
  }

  /** The error of `waitForCacheSync`: the first of its three tasks to fail. */
  function SyncError(group: string, version: string, env: Environment): Option<Error>
    requires CompletionOrder(env.syncCompletionOrder, 3)
  {
    FirstError([env.registerResourceErr, OverrideSync(group, version, env.overrideSyncResult),
                ValidateSync(group, version, env.validateSyncResult)], env.syncCompletionOrder)
  }

  /** The error of `setupInterrupter`: the override template, the validate template, then the start-up. */
  function InterrupterError(env: Environment): Option<Error>
  {
    if env.overrideTemplateErr.Some? then env.overrideTemplateErr
    else if env.validateTemplateErr.Some? then env.validateTemplateErr
    else env.interrupterStartUpErr
  }

  /** The outcome of each step of `Run`, aligned with `RunSteps`. */
  function StepOutcomes(group: string, version: string, certDir: string, env: Environment): (outcomes: seq<Option<Error>>)
    requires CompletionOrder(env.syncCompletionOrder, 3)
    ensures |outcomes| == |RunSteps|
  {
    [env.newManagerErr,
     env.healthzErr,
     env.drListerErr,
     SyncError(group, version, env),
     InterrupterError(env),
     env.addRotator(Cert.RotatorConfig(CertOptions(certDir, env.variables))),
     env.startErr]
  }

  /** The index of the first failing outcome, or the number of outcomes if none fails. */
  function FirstFailure(outcomes: seq<Option<Error>>): (k: nat)
    ensures k <= |outcomes|
    ensures forall j :: 0 <= j < k ==> outcomes[j].None?
    ensures k < |outcomes| ==> outcomes[k].Some?
  {
    if |outcomes| == 0 then 0
    else if outcomes[0].Some? then 0
    else 1 + FirstFailure(outcomes[1..])
  }

  /** The steps a fail-fast chain attempts: up to and including the first failing one. */
  function Attempted(outcomes: seq<Option<Error>>): seq<Step>
    requires |outcomes| == |RunSteps|
  {
    var k := FirstFailure(outcomes);
    if k < |outcomes| then RunSteps[..k + 1] else RunSteps
  }

  /** The error a fail-fast chain ends with: the first failing step's, or nil. */
  function ChainError(outcomes: seq<Option<Error>>): Option<Error>
  {
    var k := FirstFailure(outcomes);
    if k < |outcomes| then outcomes[k] else None
  }

  /** A chain whose first failure is at step k. */
  lemma FailsAt(outcomes: seq<Option<Error>>, k: nat)
    requires |outcomes| == |RunSteps| && k <= |outcomes|
    requires forall j :: 0 <= j < k ==> outcomes[j].None?
    requires k < |outcomes| ==> outcomes[k].Some?
    ensures FirstFailure(outcomes) == k
    ensures Attempted(outcomes) == if k < |outcomes| then RunSteps[..k + 1] else RunSteps
    ensures ChainError(outcomes) == if k < |outcomes| then outcomes[k] else None
  {
  }

  /** No step after the first failure is attempted. */
  lemma {:induction false} FailFast(outcomes: seq<Option<Error>>, j: nat)
    requires |outcomes| == |RunSteps|
    requires FirstFailure(outcomes) < j < |RunSteps|
    ensures RunSteps[j] !in Attempted(outcomes)
  {
    var k := FirstFailure(outcomes);
    forall i | 0 <= i <= k ensures RunSteps[i] != RunSteps[j] {
    }
  }

  /**
   * The setup manager's part of `Run`: `init`, `waitForCacheSync` and
   * `setupInterrupter`, stopping at the first error. `failed` is the index in
   * `RunSteps` of the failing step, or 5 when all three succeed.
   */
  method SetUp(sm: SetupManager, env: Environment) returns (failed: nat, err: Option<Error>)
    requires CompletionOrder(env.syncCompletionOrder, 3)
    requires sm.interrupters == map[] && sm.overrideManager.None? && sm.validateManager.None?
    modifies sm
    ensures 2 <= failed <= 5
    ensures failed > 2 ==> env.drListerErr.None?
    ensures failed == 2 ==> err == env.drListerErr && err.Some?
    ensures failed > 3 ==> SyncError(sm.group, sm.version, env).None?
    ensures failed > 3 ==> OverrideSync(sm.group, sm.version, env.overrideSyncResult).None?
                           && ValidateSync(sm.group, sm.version, env.validateSyncResult).None?
    ensures failed == 3 ==> err == SyncError(sm.group, sm.version, env) && err.Some?
    ensures failed > 4 ==> InterrupterError(env).None?
    ensures failed == 4 ==> err == InterrupterError(env) && err.Some?
    ensures failed == 5 ==> err.None?
    // a manager is assigned exactly when `init` passed and its own sync check passed
    ensures failed > 2 && OverrideSync(sm.group, sm.version, env.overrideSyncResult).None? ==> sm.OverrideAssigned()
    ensures failed == 2 || OverrideSync(sm.group, sm.version, env.overrideSyncResult).Some? ==>
      sm.opLister == old(sm.opLister) && sm.copLister == old(sm.copLister) && sm.overrideManager == old(sm.overrideManager)
    ensures failed > 2 && ValidateSync(sm.group, sm.version, env.validateSyncResult).None? ==> sm.ValidateAssigned()
    ensures failed == 2 || ValidateSync(sm.group, sm.version, env.validateSyncResult).Some? ==>
      sm.cvpLister == old(sm.cvpLister) && sm.validateManager == old(sm.validateManager)
    // interrupters are registered only when every earlier step and both templates succeeded
    ensures failed < 4 || env.overrideTemplateErr.Some? || env.validateTemplateErr.Some? ==> sm.interrupters == old(sm.interrupters)
    ensures failed == 5 ==> sm.interrupters == sm.PolicyInterrupters()
    ensures sm.InterruptersListed()
  {
    err := sm.Init(env.drListerErr);
    if err.Some? {
      return 2, err;
    }
    err := sm.WaitForCacheSync(env.registerResourceErr, env.overrideSyncResult, env.validateSyncResult,
                               env.syncCompletionOrder);
    if err.Some? {
      return 3, err;
    }
    err := sm.SetupInterrupter(env.overrideTemplateErr, env.validateTemplateErr, env.interrupterStartUpErr);
    if err.Some? {
      return 4, err;
    }
    assert sm.interrupters == sm.PolicyInterrupters();
    return 5, None;
  }

  /** `Run`, from building the manager to starting the server; returns the steps attempted and the error. */
  method Run(group: string, version: string, certDir: string, env: Environment)
    returns (steps: seq<Step>, err: Option<Error>, sm: SetupManager)
    requires CompletionOrder(env.syncCompletionOrder, 3)
    ensures steps == Attempted(StepOutcomes(group, version, certDir, env))
    ensures err == ChainError(StepOutcomes(group, version, certDir, env))
    // the interrupters are built only after the cache sync assigned every lister
    ensures sm.InterruptersListed()
    ensures sm.group == group && sm.version == version
    // a run that reached the certificate step has both managers and the three interrupters
    ensures SetupCertRotator in steps ==>
      sm.OverrideAssigned() && sm.ValidateAssigned() && sm.interrupters == sm.PolicyInterrupters()
  {
    ghost var outcomes := StepOutcomes(group, version, certDir, env);
    sm := new SetupManager(group, version);
    if env.newManagerErr.Some? {
      FailsAt(outcomes, 0);
      return RunSteps[..1], env.newManagerErr, sm;
    }
    if env.healthzErr.Some? {
      FailsAt(outcomes, 1);
      return RunSteps[..2], env.healthzErr, sm;
    }
    var failed;
    failed, err := SetUp(sm, env);
    if failed < 5 {
      FailsAt(outcomes, failed);
      steps := RunSteps[..failed + 1];
      assert SetupCertRotator !in steps;
      return;
    }
    var setupCh := Cert.SetupCertRotator(CertOptions(certDir, env.variables), env.addRotator);
    if setupCh.Failure? {
      FailsAt(outcomes, 5);
      return RunSteps[..6], Some(setupCh.error), sm;
    }
    // the route registrar now waits for setupCh; see ServerState
    FailsAt(outcomes, if env.startErr.Some? then 6 else 7);
    return RunSteps, env.startErr, sm;
  }

  /** Why the command fails: invalid options (Run never starts), or Run's own error. */
  datatype CommandError = InvalidOptions(errs: seq<Error>) | RunFailed(err: Error)

  /** `RunE`: validate the options, and run only if they are valid. */
  method RunE(validationErrs: seq<Error>, group: string, version: string, certDir: string, env: Environment)
    returns (steps: seq<Step>, err: Option<CommandError>)
    requires CompletionOrder(env.syncCompletionOrder, 3)
    ensures |validationErrs| != 0 ==> steps == [] && err == Some(InvalidOptions(validationErrs))
    ensures |validationErrs| == 0 ==>
      var outcomes := StepOutcomes(group, version, certDir, env);
      && steps == Attempted(outcomes)
      && (err.None? <==> forall j :: 0 <= j < |outcomes| ==> outcomes[j].None?)
      && (err.Some? ==> err.value == RunFailed(ChainError(outcomes).value))
  {
    if |validationErrs| != 0 {
      return [], Some(InvalidOptions(validationErrs));
    }
    var runErr, sm;
    steps, runErr, sm := Run(group, version, certDir, env);
    if runErr.Some? {
      return steps, Some(RunFailed(runErr.value));
    }
    return steps, None;
  }

  // ------------------------------------------------------------------
  // Route registration after the certificate readiness signal
  // ------------------------------------------------------------------

  const AdmissionRoutes: seq<string> := ["/mutate", "/validate", "/readyz"]

  /** The webhook server once `Run` has started it: the readiness channel and the registrar goroutine. */
  datatype ServerState = ServerState(certReady: bool, registered: bool, routes: seq<string>)

  const ServerStarted: ServerState := ServerState(false, false, [])

  /** The rotator closing the readiness channel, or the registrar goroutine getting to run. */
  datatype Event = CertSetupFinished | RegistrarRuns

  function Next(s: ServerState, e: Event): (r: ServerState)
    // the signal, once fired, stays fired; registered routes are never replaced
    ensures s.certReady ==> r.certReady
    ensures s.registered ==> r.registered && r.routes == s.routes
    // before the signal the registrar stays blocked
    ensures e == RegistrarRuns && !s.certReady ==> r == s
    // the registrar's first turn after the signal registers the routes
    ensures e == RegistrarRuns && s.certReady && !s.registered ==> r.registered && r.routes == s.routes + AdmissionRoutes
  {
    match e
    case CertSetupFinished => s.(certReady := true)
    case RegistrarRuns =>
      // blocked on `<-setupCh` until the channel is closed; registers once, then exits
      if s.certReady && !s.registered then s.(registered := true, routes := s.routes + AdmissionRoutes)
      else s
  }

  function Replay(s: ServerState, events: seq<Event>): (r: ServerState)
    ensures s.certReady ==> r.certReady
    ensures s.registered ==> r.registered && r.routes == s.routes
    // without the signal in the events, the registrar never registers anything
    ensures !s.certReady && CertSetupFinished !in events ==> r.registered == s.registered && r.routes == s.routes
    decreases |events|
  {
    if |events| == 0 then s else Replay(Next(s, events[0]), events[1..])
  }

  /** Routes exist only once the signal fired, and then they are exactly the three admission routes. */
  predicate RoutesFollowSignal(s: ServerState)
  {
    && (s.routes != [] ==> s.certReady)
    && (s.registered <==> s.routes == AdmissionRoutes)
    && (!s.registered ==> s.routes == [])
  }

  /** Whatever the interleaving, no route is registered before the readiness signal, and the signal stays fired. */
  lemma {:induction false} ReplayKeepsRoutesAfterSignal(s: ServerState, events: seq<Event>)
    requires RoutesFollowSignal(s)
    ensures RoutesFollowSignal(Replay(s, events))
    decreases |events|
  {
    if |events| > 0 {
      ReplayKeepsRoutesAfterSignal(Next(s, events[0]), events[1..]);
    }
  }

  /** Without a readiness signal nothing is ever registered. */
  lemma {:induction false} NoSignalNoRoutes(s: ServerState, events: seq<Event>)
    requires !s.certReady && RoutesFollowSignal(s)
    requires CertSetupFinished !in events
    ensures Replay(s, events) == s
    decreases |events|
  {
    if |events| > 0 {
      assert events[0] == RegistrarRuns;
      assert CertSetupFinished !in events[1..] by {
        assert events == [events[0]] + events[1..];
      }
      NoSignalNoRoutes(Next(s, events[0]), events[1..]);
    }
  }

  /** From the freshly started server, any interleaving keeps routes behind the signal; with no signal, nothing happens. */
  lemma FromStartRoutesFollowSignal(events: seq<Event>)
    ensures RoutesFollowSignal(Replay(ServerStarted, events))
    ensures CertSetupFinished !in events ==> Replay(ServerStarted, events) == ServerStarted
  {
    ReplayKeepsRoutesAfterSignal(ServerStarted, events);
    if CertSetupFinished !in events {
      NoSignalNoRoutes(ServerStarted, events);
    }
  }

  /** Once the signal has fired, the registrar's next turn registers the routes. */
  lemma {:induction false} SignalThenRegistrar(s: ServerState, before: seq<Event>, between: seq<Event>, after: seq<Event>)
    requires RoutesFollowSignal(s)
    ensures Replay(s, before + [CertSetupFinished] + between + [RegistrarRuns] + after).routes == AdmissionRoutes
  {
    var head := before + [CertSetupFinished] + between;
    var tail := [RegistrarRuns] + after;
    assert before + [CertSetupFinished] + between + [RegistrarRuns] + after == head + tail;
    assert head == before + ([CertSetupFinished] + between);
    ReplayConcat(s, head, tail);
    ReplayConcat(s, before, [CertSetupFinished] + between);
    var s1 := Replay(s, before);
    ReplayKeepsRoutesAfterSignal(s, before);
    var s1' := Next(s1, CertSetupFinished);
    assert Replay(s1, [CertSetupFinished] + between) == Replay(s1', between) by {
      assert ([CertSetupFinished] + between)[1..] == between;
    }
    assert RoutesFollowSignal(s1') && s1'.certReady;
    ReplayKeepsRoutesAfterSignal(s1', between);
    var s2 := Replay(s1', between);
    assert Replay(s, head) == s2;
    var s3 := Next(s2, RegistrarRuns);
    assert Replay(s2, tail) == Replay(s3, after) by {
      assert tail[0] == RegistrarRuns && tail[1..] == after;
    }
    assert s3.registered && s3.routes == AdmissionRoutes && RoutesFollowSignal(s3);
    ReplayKeepsRoutesAfterSignal(s3, after);
  }

  lemma {:induction false} ReplayConcat(s: ServerState, xs: seq<Event>, ys: seq<Event>)
    ensures Replay(s, xs + ys) == Replay(Replay(s, xs), ys)
    decreases |xs|
  {
    if |xs| > 0 {
      assert (xs + ys)[0] == xs[0];
      assert (xs + ys)[1..] == xs[1..] + ys;
      ReplayConcat(Next(s, xs[0]), xs[1..], ys);
    } else {
      assert xs + ys == ys;
    }
  }
}
