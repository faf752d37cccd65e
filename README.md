# A model of the Lambda create-or-update task

This project models the Gradle task `AWSLambdaMigrateFunctionTask` of the
gradle-aws-plugin-reboot plugin. Its action, `createOrUpdateFunction`, works in
five steps:

1. It validates the task's inputs.
2. It asks the AWS Lambda service for the function.
3. If the function exists, it updates the configuration and reconciles the
   function's tags, then it updates the code.
4. If anything in that try block raises `ResourceNotFoundException`, it creates
   the function instead.
5. When an alias is set, it points the alias at the version that the create or
   the code update returned. It tries `updateAlias` first and falls back to
   `createAlias`.

The project has five files:

- `wrappers.dfy` defines `Option`, the model of a Java reference that may be null.
- `lambda_model.dfy` defines the SDK values the task builds and reads: requests,
  results, the code payload, and the entries of the call log.
- `lambda_service.dfy` is an abstract Lambda service, the environment of the
  task (it is not part of the plugin's source).
  - Its state holds the functions by name, the tags by ARN, the aliases, and a
    log of every call with its failure.
  - Every API operation is a pure step function, and the class `LambdaClient`
    performs the same steps in place on its fields.
  - Failures from outside the task (a concurrent deletion, throttling, a
    permission error) come from a schedule, `injected`, keyed by log position.
    This is what makes a not-found inside the try block reachable.
- `migrate_function.dfy` holds the task itself.
  - The pure parts are functions: validation, `getOrElse`, the environment
    merge, the tag keys to remove, and the requests.
  - `MigrateFunctionTask` is a class. Its methods drive a `LambdaClient` in the
    order the Java methods do.
  - Each method is proved to end in exactly the outcome and service state
    given by a spec function. `updateFunctionConfiguration` fills its
    environment map by two successive overlays, as the Java does with two
    `putAll` calls, and is proved equal to `MergeEnvironment`.
- `migrate_function_proofs.dfy` proves the properties of the workflow as lemmas
  over the spec functions. They are stated over the calls each part appends to
  the log.

Some behaviours of the code that the model keeps as written:

- `tagFunction` issues `untagResource` whenever the listed tags are non-empty
  (`AWSLambdaMigrateFunctionTask.java:350`), even when no listed key is to be
  removed, so its key set may be empty.
- `tagFunction` is the last statement of `updateFunctionConfiguration`
  (line 292), and `updateFunctionCode` runs after it (line 155). So the update
  path calls the configuration update, then the tag calls, then the code
  update, then the alias calls.
- One catch around the whole try block (lines 146-161) turns every
  `ResourceNotFoundException` raised inside it into a `createFunction`. That
  includes a not-found from the configuration update, the tag calls, the code
  update and `createAlias`; only the not-found of `updateAlias` is absorbed
  earlier, by `createOrUpdateAlias`.
- `createFunction` upserts the alias through `createOrUpdateAlias`, which always
  tries `updateAlias` first (lines 214-216 and 303-310), so even the create path
  calls `updateAlias`.

## Model

| member | source | states |
|---|---|---|
| MigrateFunction.ValidateVariables | src/main/java/jp/classmethod/aws/reboot/gradle/lambda/AWSLambdaMigrateFunctionTask.java:164-175 | validation passes iff the name is set, exactly one of zipFile and s3File is set, and the S3 file validates; a missing name fails with "functionName is required"; both or neither code source fails with "exactly one of zipFile or s3File is required"; nothing else is thrown but these and the S3 file's own error |
| MigrateFunction.GetOrElse | src/main/java/jp/classmethod/aws/reboot/gradle/lambda/AWSLambdaMigrateFunctionTask.java:295-301 | the primary value when it is non-null, the secondary value otherwise; null only when both are |
| MigrateFunction.MergeEnvironment | src/main/java/jp/classmethod/aws/reboot/gradle/lambda/AWSLambdaMigrateFunctionTask.java:268-274 | the keys are the union of the server's and the task's keys; every key of the task's map has the task's value; every server-only key keeps the server's value; a null map counts as empty |
| MigrateFunction.TagKeysToRemove | src/main/java/jp/classmethod/aws/reboot/gradle/lambda/AWSLambdaMigrateFunctionTask.java:351-356 | a key is removed iff it is among the current tags and not among the desired ones (the left-only entries of `Maps.difference`) |
| MigrateFunction.RuntimeFromValue | src/main/java/jp/classmethod/aws/reboot/gradle/lambda/AWSLambdaMigrateFunctionTask.java:258 | `Runtime.fromValue` fails exactly on a null or empty name, and otherwise yields the runtime of that name |
| MigrateFunction.CodeOf | src/main/java/jp/classmethod/aws/reboot/gradle/lambda/AWSLambdaMigrateFunctionTask.java:182-196 | the code payload is the zip file when one is set, and otherwise the S3 object with the S3 file's bucket, key and object version |
| MigrateFunction.MigrateFunctionTask.CreateOrUpdateFunction | src/main/java/jp/classmethod/aws/reboot/gradle/lambda/AWSLambdaMigrateFunctionTask.java:135-162 | the outcome, the client's new state and createFunctionResult are those of the workflow: validate, run the try block, create the function on not-found |
| MigrateFunction.MigrateFunctionTask.CreateFunction | src/main/java/jp/classmethod/aws/reboot/gradle/lambda/AWSLambdaMigrateFunctionTask.java:177-217 | it issues createFunction with every setting, stores the result in createFunctionResult, then upserts the alias with the returned version; the outcome and new state are those of the spec function |
| MigrateFunction.MigrateFunctionTask.UpdateFunctionCode | src/main/java/jp/classmethod/aws/reboot/gradle/lambda/AWSLambdaMigrateFunctionTask.java:219-251 | the request it builds, with publish set only when the task sets it, is the code request; then it upserts the alias with the returned version; the outcome and new state are those of the spec function |
| MigrateFunction.MigrateFunctionTask.UpdateFunctionConfiguration | src/main/java/jp/classmethod/aws/reboot/gradle/lambda/AWSLambdaMigrateFunctionTask.java:253-293 | the environment built by the two overlays is the merged environment; it raises when the runtime cannot be resolved, issues the reconciled request, then reconciles the tags; the outcome and new state are those of the spec function |
| MigrateFunction.MigrateFunctionTask.CreateOrUpdateAlias | src/main/java/jp/classmethod/aws/reboot/gradle/lambda/AWSLambdaMigrateFunctionTask.java:303-310 | it calls updateAlias and, exactly on its not-found, createAlias; the outcome and new state are those of the spec function |
| MigrateFunction.MigrateFunctionTask.UpdateAlias | src/main/java/jp/classmethod/aws/reboot/gradle/lambda/AWSLambdaMigrateFunctionTask.java:312-322 | one updateAlias call with the function name, the version and the alias; its outcome is the call's |
| MigrateFunction.MigrateFunctionTask.CreateAlias | src/main/java/jp/classmethod/aws/reboot/gradle/lambda/AWSLambdaMigrateFunctionTask.java:324-334 | one createAlias call with the function name, the version and the alias; its outcome is the call's |
| MigrateFunction.MigrateFunctionTask.TagFunction | src/main/java/jp/classmethod/aws/reboot/gradle/lambda/AWSLambdaMigrateFunctionTask.java:343-369 | listTags, then untagResource when listed tags are non-empty, then tagResource when the desired map is non-empty, stopping at the first failure; the outcome and new state are those of the spec function |
| MigrateFunctionProofs.ValidationPrecedesCalls | src/main/java/jp/classmethod/aws/reboot/gradle/lambda/AWSLambdaMigrateFunctionTask.java:137-148 | invalid inputs end with the validation exception and leave the service state, log included, untouched; valid inputs make getFunction the first call |
| MigrateFunctionProofs.AliasUpsert | src/main/java/jp/classmethod/aws/reboot/gradle/lambda/AWSLambdaMigrateFunctionTask.java:303-334 | updateAlias is tried first; createAlias follows, with the same request and version, iff updateAlias was not found; only createAlias's not-found escapes; the upsert succeeds iff its last call did |
| MigrateFunctionProofs.TagReconciliation | src/main/java/jp/classmethod/aws/reboot/gradle/lambda/AWSLambdaMigrateFunctionTask.java:343-369 | for any failures: no call iff tags is null; otherwise listTags first; untagResource iff listing succeeded and the current tags are non-empty, as the second call, with keys current minus desired; tagResource iff listing succeeded, the desired map is non-empty and the untag succeeded, as the last call, with the whole desired map; functions and aliases unchanged |
| MigrateFunctionProofs.TagsConverge | src/main/java/jp/classmethod/aws/reboot/gradle/lambda/AWSLambdaMigrateFunctionTask.java:350-365 | deleting the keys to remove and then adding the desired entries leaves exactly the desired map |
| MigrateFunctionProofs.TagsReachDesired | src/main/java/jp/classmethod/aws/reboot/gradle/lambda/AWSLambdaMigrateFunctionTask.java:343-369 | with no failures and a known ARN, tagFunction succeeds with exactly the calls listTags, untagResource (when tags exist) and tagResource (when desired is non-empty), and the resource's tags become the desired map |
| MigrateFunctionProofs.ConfigurationThenTags | src/main/java/jp/classmethod/aws/reboot/gradle/lambda/AWSLambdaMigrateFunctionTask.java:253-293 | no call and an IllegalArgumentException when the runtime cannot be resolved; otherwise the reconciled updateFunctionConfiguration comes first, followed only by tag calls (none when tags is null) and nothing after its own failure |
| MigrateFunctionProofs.CodeThenAlias | src/main/java/jp/classmethod/aws/reboot/gradle/lambda/AWSLambdaMigrateFunctionTask.java:219-251 | updateFunctionCode first, carrying the task's publish flag as it is (unset when the task leaves it unset); alias calls follow iff the code update succeeded and an alias is set, all with the version the code update returned, updateAlias first |
| MigrateFunctionProofs.CreateThenAlias | src/main/java/jp/classmethod/aws/reboot/gradle/lambda/AWSLambdaMigrateFunctionTask.java:197-216 | createFunction first with every setting, publish included; createFunctionResult is set iff it succeeded, to its result; alias calls follow iff it succeeded and an alias is set, all with the version createFunction returned; exactly one createFunction |
| MigrateFunctionProofs.TryBlock | src/main/java/jp/classmethod/aws/reboot/gradle/lambda/AWSLambdaMigrateFunctionTask.java:146-156 | the try block starts with getFunction and ends there when it fails; it never calls createFunction; every code update follows a configuration update that succeeded; every createAlias follows a not-found updateAlias with the same request; alias calls name only the task's alias |
| MigrateFunctionProofs.TryBlockNotFound | src/main/java/jp/classmethod/aws/reboot/gradle/lambda/AWSLambdaMigrateFunctionTask.java:146-157 | the try block raises ResourceNotFoundException iff one of its calls other than updateAlias was not found |
| MigrateFunctionProofs.TryBlockOrder | src/main/java/jp/classmethod/aws/reboot/gradle/lambda/AWSLambdaMigrateFunctionTask.java:147-156 | a completed try block found the function and called getFunction, then the reconciled updateFunctionConfiguration, then only tag calls (none when tags is null), then updateFunctionCode, then only alias calls (none when alias is null), updateAlias first |
| MigrateFunctionProofs.NotFoundFallsBackToCreate | src/main/java/jp/classmethod/aws/reboot/gradle/lambda/AWSLambdaMigrateFunctionTask.java:146-161 | the run's log starts with the try block's log; createFunction is called exactly once, right after the try block, when the try block had an unabsorbed not-found, and never otherwise; without one the run is the try block's |
| MigrateFunctionProofs.ConfigurationBeforeCode | src/main/java/jp/classmethod/aws/reboot/gradle/lambda/AWSLambdaMigrateFunctionTask.java:154-156 | in every run, every updateFunctionCode comes after an updateFunctionConfiguration that succeeded |
| MigrateFunctionProofs.AliasOnlyAfterUpdateNotFound | src/main/java/jp/classmethod/aws/reboot/gradle/lambda/AWSLambdaMigrateFunctionTask.java:303-310 | in every run, createAlias comes right after a not-found updateAlias with the same request, and alias calls happen only when alias is set, with that alias |
| MigrateFunction.ConfigRequest | src/main/java/jp/classmethod/aws/reboot/gradle/lambda/AWSLambdaMigrateFunctionTask.java:254-286 | the request exists iff the task or the fetched configuration has a usable runtime; the function name, VPC and layers are the task's; each of role, runtime, handler, description, timeout and memory size is the task's value when set and the fetched one otherwise; the environment is the merge |
| MigrateFunctionProofs.CreateRequestFromTask | src/main/java/jp/classmethod/aws/reboot/gradle/lambda/AWSLambdaMigrateFunctionTask.java:197-210 | the createFunction request carries every setting exactly as the task has it: name, runtime, role, handler, description, timeout, memory size, publish, VPC, the unmerged environment, tags, layers, and the task's code |
| MigrateFunction.CodeRequest | src/main/java/jp/classmethod/aws/reboot/gradle/lambda/AWSLambdaMigrateFunctionTask.java:224-243 | the updateFunctionCode request names the task's function, carries the task's code (a zip payload iff a zip file is set) and the task's publish flag, unset when the task leaves it unset |
| MigrateFunction.DefaultConfiguration | src/main/java/jp/classmethod/aws/reboot/gradle/lambda/AWSLambdaMigrateFunctionTask.java:149-152 | the configuration used when none is fetched has only its runtime set, to Nodejs, so `Runtime.fromValue` resolves it |
| MigrateFunction.FetchedConfiguration | src/main/java/jp/classmethod/aws/reboot/gradle/lambda/AWSLambdaMigrateFunctionTask.java:148-152 | the configuration getFunction returned when it returned one, and the default configuration otherwise |
| MigrateFunction.TryUpdateSpec | src/main/java/jp/classmethod/aws/reboot/gradle/lambda/AWSLambdaMigrateFunctionTask.java:146-156 | the try block only appends to the log, and its first call is getFunction for the task's function |
| MigrateFunctionProofs.DefaultConfigurationIsNodejs | src/main/java/jp/classmethod/aws/reboot/gradle/lambda/AWSLambdaMigrateFunctionTask.java:149-152 | when getFunction returns no configuration, the runtime is the task's or else Nodejs, and the environment is just the task's variables |
| MigrateFunctionProofs.CreatePath | src/main/java/jp/classmethod/aws/reboot/gradle/lambda/AWSLambdaMigrateFunctionTask.java:146-161 | with no failures and no such function: getFunction not found, createFunction, and with an alias updateAlias not found then createAlias at the returned version; the function exists with the configuration of the create request, the task's code and the first published count, its tags are the task's, and createFunctionResult is set |
| MigrateFunctionProofs.UpdatePathConfiguration | src/main/java/jp/classmethod/aws/reboot/gradle/lambda/AWSLambdaMigrateFunctionTask.java:147-155 | with no failures and an existing function: getFunction succeeds, the configuration becomes the reconciled request, and the resource's tags become the desired map |
| MigrateFunctionProofs.UpdatePath | src/main/java/jp/classmethod/aws/reboot/gradle/lambda/AWSLambdaMigrateFunctionTask.java:146-162 | with no failures and an existing function, the run succeeds without creating; the function ends with the reconciled configuration, the task's code and the published count; the tags are the desired map; the alias points at the version the code update reported |

## Left out

- Reading the zip file into a buffer (lines 184-189 and 227-232) is file I/O. The code payload is the zip path, or the S3 bucket, key and version.
- In the model, reading the zip file never fails. In the code, a missing or unreadable zip raises `FileNotFoundException` or `IOException` at line 227. That happens after the configuration and tags were updated, and the exception escapes the catch at line 157. At line 184 the same failure happens before `createFunction` is called.
- The Gradle extension lookup and client construction (lines 143-144) and every logger call are not modelled. The client is a parameter of the task's methods.
- `S3File.validate()` (line 173) is not part of this model. Each S3 file carries the message of the exception it would raise, if any.
- `VpcConfigWrapper.toVpcConfig()` (line 338) is not part of this model. The task holds the resulting VPC configuration and passes it through.
- MigrateFunction.RuntimeFromValue: does not reject runtime names outside the SDK's enumeration, because that enumeration is not part of this model. Only a null or empty name raises.
- SDK retries, timeouts and credentials belong to the SDK. A call either succeeds or fails once with not-found or another service error.
- The service is deliberately simple:
  - ARNs are `arn:aws:lambda:function:` followed by the name;
  - the fetched configuration names the function's ARN;
  - tags live under the function's ARN;
  - a published version number counts the code updates made with publish set.
- The Gradle property setters and getters and the task's description and group are plumbing, not modelled.
- The S3 and ECR plugin extensions are client configuration and hold no workflow logic.
