# Canary judges controller, modelled in Dafny

This project models the two pieces of logic in Kayenta's `CanaryJudgesController`. The rest of the class only hands work to other services.

- **Judge resolution and the direct judge run** (`POST /judges/judge`). The run resolves the configuration account and the storage account. It gets a storage service for each, loads the canary configuration, and picks the judge. Then it loads the metric-set-pair list, builds the pass/marginal thresholds and invokes the judge. The judge is the first registered judge whose name equals the configuration's judge name. With no name configured, it is the first registered judge.
- **Judge-comparison results** (`GET /judges/comparison/{executionId}`). This reshapes a pipeline execution into a map. The map holds `comparisonResult` (the `compareJudgeResults` stage's output, only when the pipeline succeeded) and `exceptions` (stage name to that stage's context `exception`, whenever some stage has one).

Files:

- `wrappers.dfy`: `Option` (a nullable reference) and `Result` (a call that returns or throws).
- `streams.dfy`: the two `java.util.stream` pipelines the controller uses. `FindFirst` is `filter(..).findFirst()` and `Filter` is `filter(..).collect(toList())`.
- `canary_judges_controller.dfy`: module `CanaryJudges`. It holds the judge selection, both as a function (`ResolveJudge`) and as the controller's step-by-step method (`SelectJudge`). It also holds the judge run as a function that records which steps it started (`Judge`), the `toMap` collection of stage exceptions (`CollectExceptions`) and the result-map builder (`GetJudgeComparisonResults`).

Collaborators are inputs, and any exception they throw is a `Failure` value. These are the account repository, the storage services, the judge's own computation and the execution repository. For the judge run they are function-valued fields of the `CanaryJudgesController` datatype. For result retrieval, the caller passes in what `executionRepository.retrieve` returned.

Three behaviours of Java libraries are modelled as errors:

- Guava's `ImmutableMap.Builder.put` rejects a null value. So a succeeded pipeline whose stage has no `comparisonResult` output fails.
- `Collectors.toMap` with no merge function throws on a repeated stage name. It does not keep the last value.
- `Collectors.toMap` rejects a null `exception` value. Its accumulator checks the value for null before it checks the key for a repeat, one stage at a time in list order, and `CollectExceptions` does the same.

Two further facts about the code that a reader might not expect:

- An empty judge registry fails with the `IndexOutOfBoundsException` of `canaryJudges.get(0)`. There is no dedicated error.
- The judge run gets the storage services of both accounts before it loads the configuration.

## Model

| member | source | states |
|---|---|---|
| `Streams.FindFirst` | kayenta/kayenta-web/src/main/java/com/netflix/kayenta/controllers/CanaryJudgesController.java:118-120 | yields the index of an element that satisfies the filter, with no earlier element satisfying it; yields nothing exactly when no element does |
| `Streams.FilterMembers` | kayenta/kayenta-web/src/main/java/com/netflix/kayenta/controllers/CanaryJudgesController.java:218-221 | the collected list holds exactly the elements that satisfy the filter, and is empty exactly when none does |
| `Streams.FilterCounts` | kayenta/kayenta-web/src/main/java/com/netflix/kayenta/controllers/CanaryJudgesController.java:218-221 | the collected list keeps every occurrence of each element that satisfies the filter, and none of any other element |
| `Streams.FilterConcat` | kayenta/kayenta-web/src/main/java/com/netflix/kayenta/controllers/CanaryJudgesController.java:218-221 | the collected list keeps the stages' order: filtering a concatenation is concatenating the filtered parts |
| `CanaryJudges.ResolveJudge` | kayenta/kayenta-web/src/main/java/com/netflix/kayenta/controllers/CanaryJudgesController.java:110-130 | with a configured judge name that is neither null nor empty: succeeds iff some registered judge has exactly that name, then yields the first such judge in registry order, else fails with UnknownJudge naming it; with no judge section or a null/empty name: succeeds iff the registry is non-empty, then yields element 0, else fails with IndexOutOfBounds(0, 0) |
| `CanaryJudges.SelectJudge` | kayenta/kayenta-web/src/main/java/com/netflix/kayenta/controllers/CanaryJudgesController.java:110-130 | the controller's reassignment of a local judge (null, then the name match, then the default) chooses the same judge, or fails the same way, as ResolveJudge |
| `CanaryJudges.List` | kayenta/kayenta-web/src/main/java/com/netflix/kayenta/controllers/CanaryJudgesController.java:79-81 | the listing is the registered judges themselves, in registration order |
| `CanaryJudges.Judge` | kayenta/kayenta-web/src/main/java/com/netflix/kayenta/controllers/CanaryJudgesController.java:94-141 | the steps started are always a non-empty prefix of the fixed order (configuration account, storage account, configuration service, storage service, configuration, judge, metrics, thresholds, invoke); a successful run took every step; the judge is invoked iff every earlier step was taken, and only as the last step, so at most once |
| `CanaryJudges.JudgeInvokesResolvedJudgeOnce` | kayenta/kayenta-web/src/main/java/com/netflix/kayenta/controllers/CanaryJudgesController.java:132-141 | when every collaborator answers, the outcome is what the resolved judge returns or throws on the loaded configuration and metrics, with pass = passThreshold and marginal = marginalThreshold, unchanged, after all steps |
| `CanaryJudges.JudgeStopsOnUnknownJudge` | kayenta/kayenta-web/src/main/java/com/netflix/kayenta/controllers/CanaryJudgesController.java:113-124 | a configured name that no registered judge has ends the run at judge resolution with UnknownJudge(name); the metrics are never loaded and no judge is invoked |
| `CanaryJudges.JudgeStopsOnEmptyRegistry` | kayenta/kayenta-web/src/main/java/com/netflix/kayenta/controllers/CanaryJudgesController.java:128-130 | with no name configured and no judge registered, the run fails with IndexOutOfBounds(0, 0) before loading metrics or invoking a judge |
| `CanaryJudges.JudgeStopsAtFirstFailure` | kayenta/kayenta-web/src/main/java/com/netflix/kayenta/controllers/CanaryJudgesController.java:94-134 | for each step from configuration-account resolution to the metric load: when every earlier step answered and this one throws, the outcome is that exception and the trace ends at this step, so nothing later runs and no judge is invoked |
| `CanaryJudges.UnknownJudgeMessageNamesJudge` | kayenta/kayenta-web/src/main/java/com/netflix/kayenta/controllers/CanaryJudgesController.java:121-124 | the message of the UnknownJudge error contains the judge name, and two names give the same message only if they are equal |
| `CanaryJudges.StageNotFoundMessageNamesPipeline` | kayenta/kayenta-web/src/main/java/com/netflix/kayenta/controllers/CanaryJudgesController.java:202-207 | the message of the StageNotFound error contains the pipeline id, and two ids give the same message only if they are equal |
| `CanaryJudges.CollectExceptionsContents` | kayenta/kayenta-web/src/main/java/com/netflix/kayenta/controllers/CanaryJudgesController.java:226-227 | a successful `CollectExceptions` (the model of toMap) holds every stage's name mapped to that stage's context "exception", and no other key |
| `CanaryJudges.CollectExceptionsSucceeds` | kayenta/kayenta-web/src/main/java/com/netflix/kayenta/controllers/CanaryJudgesController.java:226-227 | `CollectExceptions` (the model of toMap) succeeds iff no two stages share a name and no stage's exception value is null |
| `CanaryJudges.CollectExceptionsFails` | kayenta/kayenta-web/src/main/java/com/netflix/kayenta/controllers/CanaryJudgesController.java:226-227 | a failed `CollectExceptions` (the model of toMap) names either a stage whose exception is null or a repeated name, with the earlier and the later stage's values |
| `CanaryJudges.PipelineExceptionsSucceed` | kayenta/kayenta-web/src/main/java/com/netflix/kayenta/controllers/CanaryJudgesController.java:218-227 | filtering the stages with an "exception" key and collecting them succeeds iff those stages have distinct names and every pipeline stage with an "exception" key has a non-null value there |
| `CanaryJudges.PipelineExceptionsContents` | kayenta/kayenta-web/src/main/java/com/netflix/kayenta/controllers/CanaryJudgesController.java:218-227 | a successful collection maps the name of each pipeline stage with an "exception" key to that value, and has no key that is not such a stage's name |
| `CanaryJudges.GetJudgeComparisonResults` | kayenta/kayenta-web/src/main/java/com/netflix/kayenta/controllers/CanaryJudgesController.java:195-231 | a failed retrieval is returned unchanged; no compareJudgeResults stage fails with StageNotFound(pipeline id); the result's keys are within {comparisonResult, exceptions}; comparisonResult is present iff the status is complete and its name lower-cased is "succeeded", holding the first such stage's non-null output, and a null output then fails with NullEntryValue; exceptions is present iff some stage's context has "exception", whatever the status, mapping each such stage's name to that value; the call succeeds iff no null comparison result, no repeated name and no null exception among those stages, and otherwise fails with toMap's error |

## Left out

- `initiateJudgeComparison` (`POST /judges/comparison`) is left out. It resolves the storage account and then the configuration account, the opposite order to the direct run. Then it loads the configuration and hands everything to `ExecutionMapper`, which is not part of this model.
- The gate `ConcourseController` is left out. Each of its endpoints only passes a call through to a remote service.
- Account resolution, storage lookup and loading, the execution repository and the judges' own computation are inputs, not implementations.
- The pass and marginal thresholds are `Double`s that are only passed through. They are modelled as their 64 bits, with no arithmetic.
- `String.toLowerCase` is modelled on ASCII letters only. Java's locale-dependent Unicode case mapping is not modelled.
- Null stage names are not modelled: names are always strings. In the code, `toMap` stores entries with `HashMap.putIfAbsent`, which accepts a null key. So a null stage name becomes a null key of `exceptions`, and two null names give the duplicate-key error.
- Null refIds and null judges or judge names in the registry are not modelled. In the code they throw a `NullPointerException` when compared.
- The iteration order of the returned `ImmutableMap` (comparisonResult before exceptions) is not captured, because the result is a Dafny `map`.
- `Message` gives only the messages the controller builds (its two `IllegalArgumentException`s) and those of collaborators' exceptions. Other exceptions are identified by their kind and fields.
- Spring and Swagger annotations, HTTP routing, JSON serialisation and `JsonProcessingException` are not modelled.
- CollectExceptionsFails: states which kinds of error a failed toMap reports and which stages they name. It does not say that the error comes from the first offending stage in list order, although the function computes exactly that.
