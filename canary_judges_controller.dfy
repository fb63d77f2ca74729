/**
 * Kayenta's `CanaryJudgesController`: which canary judge a direct judge run
 * uses, the order in which that run consults its collaborators, and how the
 * outcome of a judge-comparison pipeline is reshaped into a result map.
 *
 * The collaborators (account credentials, storage services, the judges' own
 * computation, the execution repository) are not modelled; they are inputs
 * whose every answer, including a thrown exception, is a value.
 */
module CanaryJudges {
  import opened Wrappers
  import opened Streams

  // ---------------------------------------------------------------------------
  // Values and errors
  // ---------------------------------------------------------------------------

  /** An entry of a stage's `outputs` or `context` map; `Null` is Java's null. */
  datatype Value = Null | Json(document: string)

  /** The exceptions the controller can end with. */
  datatype Error =
      /** thrown by a collaborator and propagated unchanged */
    | Upstream(message: string)
      /** IllegalArgumentException: no registered judge has the configured name */
    | UnknownJudge(judgeName: string)
      /** IndexOutOfBoundsException from `List.get` */
    | IndexOutOfBounds(index: int, length: nat)
      /** IllegalArgumentException: the pipeline has no `compareJudgeResults` stage */
    | StageNotFound(pipelineId: string)
      /** NullPointerException from `ImmutableMap.Builder.put` with a null value */
    | NullEntryValue(key: string)
      /** NullPointerException from `Collectors.toMap` on a null mapped value */
    | NullExceptionValue(stageName: string)
      /** IllegalStateException from `Collectors.toMap` on a repeated key */
    | DuplicateKey(key: string, existing: Value, attempted: Value)

  /** `m.get(key)`: null when the key is absent. */
  function Get(m: map<string, Value>, key: string): Value
  {
    if key in m then m[key] else Null
  }

  /** `x` occurs in `s` as a contiguous piece. */
  ghost predicate IsInfix(x: string, s: string)
  {
    exists i, j :: 0 <= i <= j <= |s| && s[i..j] == x
  }

  /**
   * The message an error carries, where the controller or a collaborator
   * composes it; the messages of the Java library's own exceptions are not
   * modelled.
   */
  function Message(e: Error): Option<string>
  {
    match e
    case Upstream(message) => Some(message)
    case UnknownJudge(judgeName) => Some("Unable to resolve canary judge '" + judgeName + "'.")
    case StageNotFound(pipelineId) =>
      Some("Unable to find StageExecution 'compareJudgeResults' in pipeline ID '" + pipelineId + "'")
    case _ => None
  }

  /** The unknown-judge error's message names the judge, and different judges get different messages. */
  lemma UnknownJudgeMessageNamesJudge(a: string, b: string)
    ensures Message(UnknownJudge(a)).Some? && IsInfix(a, Message(UnknownJudge(a)).value)
    ensures Message(UnknownJudge(a)) == Message(UnknownJudge(b)) ==> a == b
  {
    var prefix := "Unable to resolve canary judge '";
    var m := Message(UnknownJudge(a)).value;
    assert m[|prefix|..|prefix| + |a|] == a;
    if Message(UnknownJudge(a)) == Message(UnknownJudge(b)) {
      assert |a| == |b|;
      assert a == m[|prefix|..|prefix| + |a|] == b;
    }
  }

  /** The missing-stage error's message names the pipeline, and different pipelines get different messages. */
  lemma StageNotFoundMessageNamesPipeline(a: string, b: string)
    ensures Message(StageNotFound(a)).Some? && IsInfix(a, Message(StageNotFound(a)).value)
    ensures Message(StageNotFound(a)) == Message(StageNotFound(b)) ==> a == b
  {
    var prefix := "Unable to find StageExecution 'compareJudgeResults' in pipeline ID '";
    var m := Message(StageNotFound(a)).value;
    assert m[|prefix|..|prefix| + |a|] == a;
    if Message(StageNotFound(a)) == Message(StageNotFound(b)) {
      assert |a| == |b|;
      assert a == m[|prefix|..|prefix| + |a|] == b;
    }
  }

  // ---------------------------------------------------------------------------
  // Judges and their selection
  // ---------------------------------------------------------------------------

  /** A registered judge: its name and an opaque identity for its implementation. */
  datatype CanaryJudge = CanaryJudge(name: string, implementation: nat)

  /** The `judge` section of a canary configuration; its name may be null. */
  datatype CanaryJudgeConfig = CanaryJudgeConfig(name: Option<string>)

  /** A stored canary configuration; everything but its judge section is opaque. */
  datatype CanaryConfig = CanaryConfig(judge: Option<CanaryJudgeConfig>, document: string)

  /** `StringUtils.isEmpty`: null or the empty string. */
  predicate IsEmpty(s: Option<string>)
  {
    s.None? || s.value == ""
  }

  /** The judge name a configuration asks for, if `StringUtils.isEmpty` does not reject it. */
  function PreferredJudgeName(judgeConfig: Option<CanaryJudgeConfig>): Option<string>
  {
    if judgeConfig.Some? && !IsEmpty(judgeConfig.value.name) then judgeConfig.value.name else None
  }

  /** The filter `c -> c.getName().equals(judgeName)`. */
  function IsNamed(judgeName: string): CanaryJudge -> bool
  {
    (j: CanaryJudge) => j.name == judgeName
  }

  /** Position `i` holds the first judge of the registry named `judgeName`. */
  ghost predicate IsFirstNamed(canaryJudges: seq<CanaryJudge>, judgeName: string, i: int)
  {
    && 0 <= i < |canaryJudges|
    && canaryJudges[i].name == judgeName
    && forall j :: 0 <= j < i ==> canaryJudges[j].name != judgeName
  }

  /**
   * Which judge a run uses: the first registered judge whose name is exactly
   * the configured one, failing when there is none; without a configured name,
   * the first registered judge, failing when the registry is empty.
   */
  function ResolveJudge(judgeConfig: Option<CanaryJudgeConfig>, canaryJudges: seq<CanaryJudge>): (r: Result<CanaryJudge, Error>)
    ensures PreferredJudgeName(judgeConfig).Some? ==>
      var judgeName := PreferredJudgeName(judgeConfig).value;
      && (r.Success? <==> exists i :: 0 <= i < |canaryJudges| && canaryJudges[i].name == judgeName)
      && (r.Success? ==> exists i :: IsFirstNamed(canaryJudges, judgeName, i) && r.value == canaryJudges[i])
      && (r.Failure? ==> r.error == UnknownJudge(judgeName))
    ensures PreferredJudgeName(judgeConfig).None? ==>
      && (r.Success? <==> |canaryJudges| > 0)
      && (r.Success? ==> r.value == canaryJudges[0])
      && (r.Failure? ==> r.error == IndexOutOfBounds(0, 0))
  {
    match PreferredJudgeName(judgeConfig)
    case Some(judgeName) =>
      (match FindFirst(canaryJudges, IsNamed(judgeName))
       case None => Failure(UnknownJudge(judgeName))
       case Some(i) =>
         assert IsFirstNamed(canaryJudges, judgeName, i);
         Success(canaryJudges[i]))
    case None =>
      if |canaryJudges| == 0 then Failure(IndexOutOfBounds(0, 0)) else Success(canaryJudges[0])
  }

  /**
   * The selection as the controller writes it: a local judge starts out null,
   * is set from the configured name, and is defaulted when still null.
   */
  method SelectJudge(canaryJudgeConfig: Option<CanaryJudgeConfig>, canaryJudges: seq<CanaryJudge>)
    returns (r: Result<CanaryJudge, Error>)
    ensures r == ResolveJudge(canaryJudgeConfig, canaryJudges)
  {
    var canaryJudge: Option<CanaryJudge> := None;
    if canaryJudgeConfig.Some? {
      var judgeName := canaryJudgeConfig.value.name;
      if !IsEmpty(judgeName) {
        var found := FindFirst(canaryJudges, IsNamed(judgeName.value));
        if found.None? {
          return Failure(UnknownJudge(judgeName.value));
        }
        canaryJudge := Some(canaryJudges[found.value]);
      }
    }
    if canaryJudge.None? {
      if |canaryJudges| == 0 {
        return Failure(IndexOutOfBounds(0, |canaryJudges|));
      }
      canaryJudge := Some(canaryJudges[0]);
    }
    return Success(canaryJudge.value);
  }

  // ---------------------------------------------------------------------------
  // The direct judge run
  // ---------------------------------------------------------------------------

  datatype AccountType = ConfigurationStore | ObjectStore

  /** A storage service handle, opaque. */
  datatype StorageService = StorageService(handle: nat)

  /** A stored metric-set-pair list, opaque. */
  datatype MetricSetPairList = MetricSetPairList(document: string)

  /** A `Double` request parameter, passed through as its IEEE 754 bits. */
  datatype Double = Double(bits: bv64)

  datatype CanaryClassifierThresholdsConfig = CanaryClassifierThresholdsConfig(pass: Double, marginal: Double)

  /** What a judge returns, opaque. */
  datatype CanaryJudgeResult = CanaryJudgeResult(document: string)

  /** The parameters of `POST /judges/judge`. */
  datatype JudgeRequest = JudgeRequest(
    configurationAccountName: Option<string>,
    storageAccountName: Option<string>,
    canaryConfigId: string,
    metricSetPairListId: string,
    passThreshold: Double,
    marginalThreshold: Double)

  /** The controller's injected dependencies, each answering with a value or an exception. */
  datatype CanaryJudgesController = CanaryJudgesController(
    /** `accountCredentialsRepository.getRequiredOneBy(name, type).getName()` */
    getRequiredOneBy: (Option<string>, AccountType) -> Result<string, Error>,
    /** `storageServiceRepository.getRequiredOne(accountName)` */
    getRequiredOne: string -> Result<StorageService, Error>,
    /** `service.loadObject(accountName, ObjectType.CANARY_CONFIG, id)` */
    loadCanaryConfig: (StorageService, string, string) -> Result<CanaryConfig, Error>,
    /** `service.loadObject(accountName, ObjectType.METRIC_SET_PAIR_LIST, id)` */
    loadMetricSetPairList: (StorageService, string, string) -> Result<MetricSetPairList, Error>,
    /** `canaryJudge.judge(config, thresholds, metricSetPairList)` */
    runJudge: (CanaryJudge, CanaryConfig, CanaryClassifierThresholdsConfig, MetricSetPairList) -> Result<CanaryJudgeResult, Error>,
    /** the registered judges, in registration order */
    canaryJudges: seq<CanaryJudge>)

  /** `GET /judges`: the registered judges, as registered. */
  function List(controller: CanaryJudgesController): (r: seq<CanaryJudge>)
    ensures r == controller.canaryJudges
  {
    controller.canaryJudges
  }

  /** The steps of a judge run. */
  datatype Step =
    | ResolveConfigurationAccount
    | ResolveStorageAccount
    | GetConfigurationService
    | GetStorageService
    | LoadCanaryConfig
    | ResolveCanaryJudge
    | LoadMetricSetPairList
    | BuildThresholds
    | InvokeJudge

  /** The order in which a judge run takes its steps. */
  const JudgeSteps: seq<Step> := [
    ResolveConfigurationAccount, ResolveStorageAccount, GetConfigurationService, GetStorageService,
    LoadCanaryConfig, ResolveCanaryJudge, LoadMetricSetPairList, BuildThresholds, InvokeJudge]

  /** The outcome of a judge run and the steps it started; when it failed, the last step is the one that threw. */
  datatype JudgeRun = JudgeRun(outcome: Result<CanaryJudgeResult, Error>, trace: seq<Step>)

  /** A run that stopped with `e` in its `steps`-th step. */
  function Stopped(steps: nat, e: Error): JudgeRun
    requires 0 < steps < |JudgeSteps|
  {
    JudgeRun(Failure(e), JudgeSteps[..steps])
  }

  /**
   * `POST /judges/judge`: resolve both accounts and their storage services,
   * load the configuration, resolve the judge, load the metrics, build the
   * thresholds and invoke the judge. The first step that throws ends the run,
   * and what the judge returns or throws is the run's outcome.
   */
  function Judge(controller: CanaryJudgesController, request: JudgeRequest): (run: JudgeRun)
    ensures 0 < |run.trace| <= |JudgeSteps| && run.trace == JudgeSteps[..|run.trace|]
    ensures run.outcome.Success? ==> run.trace == JudgeSteps
    ensures InvokeJudge in run.trace <==> run.trace == JudgeSteps
    ensures forall i :: 0 <= i < |run.trace| - 1 ==> run.trace[i] != InvokeJudge
  {
    var configurationAccount := controller.getRequiredOneBy(request.configurationAccountName, ConfigurationStore);
    if configurationAccount.Failure? then Stopped(1, configurationAccount.error) else
    var storageAccount := controller.getRequiredOneBy(request.storageAccountName, ObjectStore);
    if storageAccount.Failure? then Stopped(2, storageAccount.error) else
    var configurationService := controller.getRequiredOne(configurationAccount.value);
    if configurationService.Failure? then Stopped(3, configurationService.error) else
    var storageService := controller.getRequiredOne(storageAccount.value);
    if storageService.Failure? then Stopped(4, storageService.error) else
    var canaryConfig := controller.loadCanaryConfig(configurationService.value, configurationAccount.value, request.canaryConfigId);
    if canaryConfig.Failure? then Stopped(5, canaryConfig.error) else
    var canaryJudge := ResolveJudge(canaryConfig.value.judge, controller.canaryJudges);
    if canaryJudge.Failure? then Stopped(6, canaryJudge.error) else
    var metricSetPairList := controller.loadMetricSetPairList(storageService.value, storageAccount.value, request.metricSetPairListId);
    if metricSetPairList.Failure? then Stopped(7, metricSetPairList.error) else
    var thresholds := CanaryClassifierThresholdsConfig(request.passThreshold, request.marginalThreshold);
    JudgeRun(controller.runJudge(canaryJudge.value, canaryConfig.value, thresholds, metricSetPairList.value), JudgeSteps)
  }

  /**
   * When every collaborator answers, the run invokes the resolved judge once,
   * on the loaded configuration and metrics with thresholds pass and marginal
   * taken from the request, and returns its result, or its exception, unchanged.
   */
  lemma JudgeInvokesResolvedJudgeOnce(
    controller: CanaryJudgesController, request: JudgeRequest,
    configurationAccount: string, storageAccount: string,
    configurationService: StorageService, storageService: StorageService,
    canaryConfig: CanaryConfig, canaryJudge: CanaryJudge, metricSetPairList: MetricSetPairList)
    requires controller.getRequiredOneBy(request.configurationAccountName, ConfigurationStore) == Success(configurationAccount)
    requires controller.getRequiredOneBy(request.storageAccountName, ObjectStore) == Success(storageAccount)
    requires controller.getRequiredOne(configurationAccount) == Success(configurationService)
    requires controller.getRequiredOne(storageAccount) == Success(storageService)
    requires controller.loadCanaryConfig(configurationService, configurationAccount, request.canaryConfigId) == Success(canaryConfig)
    requires ResolveJudge(canaryConfig.judge, controller.canaryJudges) == Success(canaryJudge)
    requires controller.loadMetricSetPairList(storageService, storageAccount, request.metricSetPairListId) == Success(metricSetPairList)
    ensures Judge(controller, request).outcome == controller.runJudge(
      canaryJudge, canaryConfig,
      CanaryClassifierThresholdsConfig(pass := request.passThreshold, marginal := request.marginalThreshold),
      metricSetPairList)
    ensures Judge(controller, request).trace == JudgeSteps
  {
  }

  /**
   * A configured judge name that no registered judge has ends the run at
   * judge resolution with an error naming it: the metrics are never loaded
   * and no judge is invoked.
   */
  lemma JudgeStopsOnUnknownJudge(
    controller: CanaryJudgesController, request: JudgeRequest,
    configurationAccount: string, storageAccount: string,
    configurationService: StorageService, storageService: StorageService,
    canaryConfig: CanaryConfig)
    requires controller.getRequiredOneBy(request.configurationAccountName, ConfigurationStore) == Success(configurationAccount)
    requires controller.getRequiredOneBy(request.storageAccountName, ObjectStore) == Success(storageAccount)
    requires controller.getRequiredOne(configurationAccount) == Success(configurationService)
    requires controller.getRequiredOne(storageAccount) == Success(storageService)
    requires controller.loadCanaryConfig(configurationService, configurationAccount, request.canaryConfigId) == Success(canaryConfig)
    requires PreferredJudgeName(canaryConfig.judge).Some?
    requires forall j :: j in controller.canaryJudges ==> j.name != PreferredJudgeName(canaryConfig.judge).value
    ensures Judge(controller, request).outcome == Failure(UnknownJudge(PreferredJudgeName(canaryConfig.judge).value))
    ensures Judge(controller, request).trace[|Judge(controller, request).trace| - 1] == ResolveCanaryJudge
    ensures LoadMetricSetPairList !in Judge(controller, request).trace
    ensures InvokeJudge !in Judge(controller, request).trace
  {
  }

  /** With no judge name configured and no judge registered, the run ends at judge resolution. */
  lemma JudgeStopsOnEmptyRegistry(
    controller: CanaryJudgesController, request: JudgeRequest,
    configurationAccount: string, storageAccount: string,
    configurationService: StorageService, storageService: StorageService,
    canaryConfig: CanaryConfig)
    requires controller.getRequiredOneBy(request.configurationAccountName, ConfigurationStore) == Success(configurationAccount)
    requires controller.getRequiredOneBy(request.storageAccountName, ObjectStore) == Success(storageAccount)
    requires controller.getRequiredOne(configurationAccount) == Success(configurationService)
    requires controller.getRequiredOne(storageAccount) == Success(storageService)
    requires controller.loadCanaryConfig(configurationService, configurationAccount, request.canaryConfigId) == Success(canaryConfig)
    requires PreferredJudgeName(canaryConfig.judge).None?
    requires controller.canaryJudges == []
    ensures Judge(controller, request).outcome == Failure(IndexOutOfBounds(0, 0))
    ensures LoadMetricSetPairList !in Judge(controller, request).trace
    ensures InvokeJudge !in Judge(controller, request).trace
  {
  }

  /**
   * The first collaborator that throws ends the run: its exception is the
   * outcome, and the trace stops at its step, so no later collaborator is
   * consulted and no judge is invoked.
   */
  lemma JudgeStopsAtFirstFailure(controller: CanaryJudgesController, request: JudgeRequest)
    ensures
      var configurationAccount := controller.getRequiredOneBy(request.configurationAccountName, ConfigurationStore);
      configurationAccount.Failure? ==>
        Judge(controller, request) == JudgeRun(Failure(configurationAccount.error), JudgeSteps[..1])
    ensures
      var configurationAccount := controller.getRequiredOneBy(request.configurationAccountName, ConfigurationStore);
      var storageAccount := controller.getRequiredOneBy(request.storageAccountName, ObjectStore);
      configurationAccount.Success? && storageAccount.Failure? ==>
        Judge(controller, request) == JudgeRun(Failure(storageAccount.error), JudgeSteps[..2])
    ensures
      var configurationAccount := controller.getRequiredOneBy(request.configurationAccountName, ConfigurationStore);
      var storageAccount := controller.getRequiredOneBy(request.storageAccountName, ObjectStore);
      configurationAccount.Success? && storageAccount.Success? ==>
      var configurationService := controller.getRequiredOne(configurationAccount.value);
      configurationService.Failure? ==>
        Judge(controller, request) == JudgeRun(Failure(configurationService.error), JudgeSteps[..3])
    ensures
      var configurationAccount := controller.getRequiredOneBy(request.configurationAccountName, ConfigurationStore);
      var storageAccount := controller.getRequiredOneBy(request.storageAccountName, ObjectStore);
      configurationAccount.Success? && storageAccount.Success? ==>
      var configurationService := controller.getRequiredOne(configurationAccount.value);
      var storageService := controller.getRequiredOne(storageAccount.value);
      configurationService.Success? && storageService.Failure? ==>
        Judge(controller, request) == JudgeRun(Failure(storageService.error), JudgeSteps[..4])
    ensures
      var configurationAccount := controller.getRequiredOneBy(request.configurationAccountName, ConfigurationStore);
      var storageAccount := controller.getRequiredOneBy(request.storageAccountName, ObjectStore);
      configurationAccount.Success? && storageAccount.Success? ==>
      var configurationService := controller.getRequiredOne(configurationAccount.value);
      var storageService := controller.getRequiredOne(storageAccount.value);
      configurationService.Success? && storageService.Success? ==>
      var canaryConfig := controller.loadCanaryConfig(configurationService.value, configurationAccount.value, request.canaryConfigId);
      canaryConfig.Failure? ==>
        Judge(controller, request) == JudgeRun(Failure(canaryConfig.error), JudgeSteps[..5])
    ensures
      var configurationAccount := controller.getRequiredOneBy(request.configurationAccountName, ConfigurationStore);
      var storageAccount := controller.getRequiredOneBy(request.storageAccountName, ObjectStore);
      configurationAccount.Success? && storageAccount.Success? ==>
      var configurationService := controller.getRequiredOne(configurationAccount.value);
      var storageService := controller.getRequiredOne(storageAccount.value);
      configurationService.Success? && storageService.Success? ==>
      var canaryConfig := controller.loadCanaryConfig(configurationService.value, configurationAccount.value, request.canaryConfigId);
      canaryConfig.Success? ==>
      var canaryJudge := ResolveJudge(canaryConfig.value.judge, controller.canaryJudges);
      canaryJudge.Failure? ==>
        Judge(controller, request) == JudgeRun(Failure(canaryJudge.error), JudgeSteps[..6])
    ensures
      var configurationAccount := controller.getRequiredOneBy(request.configurationAccountName, ConfigurationStore);
      var storageAccount := controller.getRequiredOneBy(request.storageAccountName, ObjectStore);
      configurationAccount.Success? && storageAccount.Success? ==>
      var configurationService := controller.getRequiredOne(configurationAccount.value);
      var storageService := controller.getRequiredOne(storageAccount.value);
      configurationService.Success? && storageService.Success? ==>
      var canaryConfig := controller.loadCanaryConfig(configurationService.value, configurationAccount.value, request.canaryConfigId);
      canaryConfig.Success? && ResolveJudge(canaryConfig.value.judge, controller.canaryJudges).Success? ==>
      var metricSetPairList := controller.loadMetricSetPairList(storageService.value, storageAccount.value, request.metricSetPairListId);
      metricSetPairList.Failure? ==>
        Judge(controller, request) == JudgeRun(Failure(metricSetPairList.error), JudgeSteps[..7])
  {
  }

  // ---------------------------------------------------------------------------
  // Judge-comparison results
  // ---------------------------------------------------------------------------

  /** A pipeline's status: the name of its enum constant and whether it is complete. */
  datatype ExecutionStatus = ExecutionStatus(name: string, isComplete: bool)

  datatype StageExecution = StageExecution(
    refId: string,
    name: string,
    outputs: map<string, Value>,
    context: map<string, Value>)

  datatype PipelineExecution = PipelineExecution(id: string, status: ExecutionStatus, stages: seq<StageExecution>)

  /** A value of the result map: the comparison result, or the exceptions keyed by stage name. */
  datatype Entry = Single(value: Value) | ByStage(values: map<string, Value>)

  const CompareJudgeResultsRefId: string := "compareJudgeResults"
  const ComparisonResultKey: string := "comparisonResult"
  const ExceptionsKey: string := "exceptions"
  const ExceptionKey: string := "exception"

  /** `Character.toLowerCase` on the ASCII letters. */
  function LowerChar(c: char): char
  {
    if 'A' <= c <= 'Z' then (c as int + 32) as char else c
  }

  /** `String.toLowerCase` on the ASCII letters. */
  function ToLowerCase(s: string): string
  {
    seq(|s|, i requires 0 <= i < |s| => LowerChar(s[i]))
  }

  /** The status is complete and its name, lower-cased, is "succeeded". */
  predicate IsSucceeded(status: ExecutionStatus)
  {
    status.isComplete && ToLowerCase(status.name) == "succeeded"
  }

  predicate IsCompareJudgeResults(stage: StageExecution)
  {
    stage.refId == CompareJudgeResultsRefId
  }

  predicate HasException(stage: StageExecution)
  {
    ExceptionKey in stage.context
  }

  /** `stage.getContext().get("exception")` */
  function ExceptionOf(stage: StageExecution): Value
  {
    Get(stage.context, ExceptionKey)
  }

  /** No two of the stages share a name. */
  ghost predicate DistinctNames(stages: seq<StageExecution>)
  {
    forall i, j :: 0 <= i < j < |stages| ==> stages[i].name != stages[j].name
  }

  /**
   * `stages.stream().collect(Collectors.toMap(getName, s -> s.getContext().get("exception")))`:
   * accumulated left to right, each stage's value is first checked to be
   * non-null and then its name to be new.
   */
  function CollectExceptions(stages: seq<StageExecution>): Result<map<string, Value>, Error>
    decreases |stages|
  {
    if |stages| == 0 then Success(map[])
    else
      match CollectExceptions(stages[..|stages| - 1])
      case Failure(e) => Failure(e)
      case Success(m) =>
        var stage := stages[|stages| - 1];
        if ExceptionOf(stage) == Null then Failure(NullExceptionValue(stage.name))
        else if stage.name in m then Failure(DuplicateKey(stage.name, m[stage.name], ExceptionOf(stage)))
        else Success(m[stage.name := ExceptionOf(stage)])
  }

  /** A collected map holds exactly the stages' names, each with its stage's exception. */
  lemma {:induction false} CollectExceptionsContents(stages: seq<StageExecution>)
    requires CollectExceptions(stages).Success?
    ensures forall i :: 0 <= i < |stages| ==>
      stages[i].name in CollectExceptions(stages).value && CollectExceptions(stages).value[stages[i].name] == ExceptionOf(stages[i])
    ensures forall n :: n in CollectExceptions(stages).value ==> exists i :: 0 <= i < |stages| && stages[i].name == n
    decreases |stages|
  {
    if |stages| > 0 {
      var n := |stages| - 1;
      var prefix := stages[..n];
      assert forall i :: 0 <= i < n ==> prefix[i] == stages[i];
      CollectExceptionsContents(prefix);
    }
  }

  /** Collecting succeeds exactly when no exception is null and no two stages share a name. */
  lemma {:induction false} CollectExceptionsSucceeds(stages: seq<StageExecution>)
    ensures CollectExceptions(stages).Success? <==>
      DistinctNames(stages) && forall i :: 0 <= i < |stages| ==> ExceptionOf(stages[i]) != Null
    decreases |stages|
  {
    if |stages| > 0 {
      var n := |stages| - 1;
      var prefix := stages[..n];
      assert forall i :: 0 <= i < n ==> prefix[i] == stages[i];
      CollectExceptionsSucceeds(prefix);
      DistinctNamesSnoc(stages);
      if CollectExceptions(prefix).Success? {
        CollectExceptionsContents(prefix);
        var m := CollectExceptions(prefix).value;
        assert stages[n].name in m <==> exists i :: 0 <= i < n && stages[i].name == stages[n].name;
      }
    }
  }

  /** Names stay distinct after appending a stage iff they were and the new name is not among them. */
  lemma DistinctNamesSnoc(stages: seq<StageExecution>)
    requires |stages| > 0
    ensures var n := |stages| - 1;
      DistinctNames(stages) <==> DistinctNames(stages[..n]) && forall i :: 0 <= i < n ==> stages[i].name != stages[n].name
  {
    var n := |stages| - 1;
    assert forall i :: 0 <= i < n ==> stages[..n][i] == stages[i];
  }

  /**
   * A failed collection reports either a stage whose exception is null, or a
   * repeated name with the earlier stage's exception and the later one's.
   */
  lemma {:induction false} CollectExceptionsFails(stages: seq<StageExecution>)
    requires CollectExceptions(stages).Failure?
    ensures var e := CollectExceptions(stages).error;
      || (e.NullExceptionValue? && exists i :: 0 <= i < |stages| && stages[i].name == e.stageName && ExceptionOf(stages[i]) == Null)
      || (e.DuplicateKey? &&
            exists i, j :: 0 <= i < j < |stages| && stages[i].name == e.key && stages[j].name == e.key &&
              ExceptionOf(stages[i]) == e.existing && ExceptionOf(stages[j]) == e.attempted)
    decreases |stages|
  {
    var n := |stages| - 1;
    var prefix := stages[..n];
    assert forall i :: 0 <= i < n ==> prefix[i] == stages[i];
    if CollectExceptions(prefix).Failure? {
      CollectExceptionsFails(prefix);
    } else {
      CollectExceptionsContents(prefix);
    }
  }

  /** Collecting the exceptions of a pipeline's stages succeeds iff those stages have distinct names and non-null exceptions. */
  lemma PipelineExceptionsSucceed(stages: seq<StageExecution>)
    ensures var withException := Filter(stages, HasException);
      CollectExceptions(withException).Success? <==>
        DistinctNames(withException) && forall s :: s in stages && HasException(s) ==> s.context[ExceptionKey] != Null
  {
    var withException := Filter(stages, HasException);
    FilterMembers(stages, HasException);
    CollectExceptionsSucceeds(withException);
    if forall i :: 0 <= i < |withException| ==> ExceptionOf(withException[i]) != Null {
      forall s | s in stages && HasException(s) ensures s.context[ExceptionKey] != Null {
        var i :| 0 <= i < |withException| && withException[i] == s;
      }
    }
  }

  /** The collected exceptions, in terms of the pipeline's stages rather than the filtered list. */
  lemma PipelineExceptionsContents(stages: seq<StageExecution>)
    requires CollectExceptions(Filter(stages, HasException)).Success?
    ensures var byStage := CollectExceptions(Filter(stages, HasException)).value;
      && (forall s :: s in stages && HasException(s) ==> s.name in byStage && byStage[s.name] == s.context[ExceptionKey])
      && (forall n :: n in byStage ==> exists s :: s in stages && HasException(s) && s.name == n)
  {
    var withException := Filter(stages, HasException);
    FilterMembers(stages, HasException);
    CollectExceptionsContents(withException);
    var byStage := CollectExceptions(withException).value;
    forall s | s in stages && HasException(s)
      ensures s.name in byStage && byStage[s.name] == s.context[ExceptionKey]
    {
      var i :| 0 <= i < |withException| && withException[i] == s;
    }
    forall n | n in byStage
      ensures exists s :: s in stages && HasException(s) && s.name == n
    {
      var i :| 0 <= i < |withException| && withException[i].name == n;
      assert withException[i] in withException;
    }
  }

  /**
   * `GET /judges/comparison/{executionId}`, given what the execution
   * repository returned for the id: the first `compareJudgeResults` stage's
   * comparison result when the pipeline succeeded, and the exceptions of the
   * stages that carry one, whatever the status.
   */
  method GetJudgeComparisonResults(retrieved: Result<PipelineExecution, Error>)
    returns (r: Result<map<string, Entry>, Error>)
    ensures retrieved.Failure? ==> r == Failure(retrieved.error)
    ensures retrieved.Success? && FindFirst(retrieved.value.stages, IsCompareJudgeResults).None? ==>
      r == Failure(StageNotFound(retrieved.value.id))
    ensures r.Success? ==> r.value.Keys <= {ComparisonResultKey, ExceptionsKey}
    ensures r.Success? ==>
      && retrieved.Success?
      && FindFirst(retrieved.value.stages, IsCompareJudgeResults).Some?
      && var pipeline := retrieved.value;
         var stage := pipeline.stages[FindFirst(pipeline.stages, IsCompareJudgeResults).value];
         && (ComparisonResultKey in r.value <==> IsSucceeded(pipeline.status))
         && (ComparisonResultKey in r.value ==>
               r.value[ComparisonResultKey] == Single(Get(stage.outputs, ComparisonResultKey)) &&
               Get(stage.outputs, ComparisonResultKey) != Null)
         && (ExceptionsKey in r.value <==> exists s :: s in pipeline.stages && HasException(s))
    ensures r.Success? && ExceptionsKey in r.value ==>
      && r.value[ExceptionsKey].ByStage?
      && var byStage := r.value[ExceptionsKey].values;
         && (forall s :: s in retrieved.value.stages && HasException(s) ==> s.name in byStage && byStage[s.name] == s.context[ExceptionKey])
         && (forall n :: n in byStage ==> exists s :: s in retrieved.value.stages && HasException(s) && s.name == n)
    ensures retrieved.Success? && FindFirst(retrieved.value.stages, IsCompareJudgeResults).Some? ==>
      var pipeline := retrieved.value;
      var stage := pipeline.stages[FindFirst(pipeline.stages, IsCompareJudgeResults).value];
      var nullResult := IsSucceeded(pipeline.status) && Get(stage.outputs, ComparisonResultKey) == Null;
      var withException := Filter(pipeline.stages, HasException);
      && (nullResult ==> r == Failure(NullEntryValue(ComparisonResultKey)))
      && (!nullResult && r.Failure? ==>
            CollectExceptions(withException).Failure? && r == Failure(CollectExceptions(withException).error))
      && (r.Success? <==>
            && !nullResult
            && DistinctNames(withException)
            && forall s :: s in pipeline.stages && HasException(s) ==> s.context[ExceptionKey] != Null)
  {
    if retrieved.Failure? {
      return Failure(retrieved.error);
    }
    var pipeline := retrieved.value;
    var canaryExecutionId := pipeline.id;
    var found := FindFirst(pipeline.stages, IsCompareJudgeResults);
    if found.None? {
      return Failure(StageNotFound(canaryExecutionId));
    }
    var compareJudgeResultsOutputs := pipeline.stages[found.value].outputs;
    var isComplete := pipeline.status.isComplete;
    var pipelineStatus := ToLowerCase(pipeline.status.name);
    var comparisonResult: map<string, Entry> := map[];

    if isComplete && pipelineStatus == "succeeded" {
      var value := Get(compareJudgeResultsOutputs, ComparisonResultKey);
      if value == Null {
        return Failure(NullEntryValue(ComparisonResultKey));
      }
      comparisonResult := comparisonResult[ComparisonResultKey := Single(value)];
    }

    var stagesWithException := Filter(pipeline.stages, HasException);
    FilterMembers(pipeline.stages, HasException);
    PipelineExceptionsSucceed(pipeline.stages);
    if stagesWithException != [] {
      var exceptions := CollectExceptions(stagesWithException);
      if exceptions.Failure? {
        return Failure(exceptions.error);
      }
      PipelineExceptionsContents(pipeline.stages);
      comparisonResult := comparisonResult[ExceptionsKey := ByStage(exceptions.value)];
    }
    return Success(comparisonResult);
  }
}
