/**
 * The Gradle task that creates or updates an AWS Lambda function
 * (AWSLambdaMigrateFunctionTask, the action createOrUpdateFunction).
 *
 * The pure parts are functions: input validation, the getOrElse fallback, the
 * environment merge, the tag keys to remove, and the requests built from the
 * task's settings. Each private method of the task is a method of the class
 * MigrateFunctionTask that drives a LambdaClient. Each such method is proved to
 * end in the outcome and service state given by a spec function of the same
 * name with the suffix Spec. The properties of the workflow are lemmas about
 * these spec functions, in module MigrateFunctionProofs.
 */
module MigrateFunction {
  import opened Wrappers
  import opened LambdaModel
  import opened LambdaService

  /**
   * The task's s3File. `invalid` is the message of the exception S3File.validate()
   * raises for this file, if it raises one; the rule itself is not part of this model.
   */
  datatype S3File = S3File(
    bucketName: Option<string>,
    key: Option<string>,
    objectVersion: Option<string>,
    invalid: Option<string>)

  /** The task's input properties, as set in the build file. */
  datatype Settings = Settings(
    functionName: Option<string>,
    role: Option<string>,
    runtime: Option<Runtime>,
    handler: Option<string>,
    functionDescription: Option<string>,
    lambdaTimeout: Option<int>,
    memorySize: Option<int>,
    zipFile: Option<string>,
    s3File: Option<S3File>,
    vpc: Option<VpcConfig>,
    environment: Option<StringMap>,
    tags: Option<StringMap>,
    layers: Option<seq<string>>,
    publish: Option<bool>,
    alias: Option<string>)

  /** The exceptions the task can end with. */
  datatype Exception =
    | GradleException(message: string)
    | InvalidS3File(message: string)
    | IllegalArgumentException(message: string)
    | ResourceNotFoundException
    | ServiceException

  datatype Outcome = Done | Threw(exception: Exception)

  /** How a part of the workflow ended, and the service state it left. */
  datatype Run = Run(outcome: Outcome, state: ServiceState)

  /** A run of createFunction, with the result it stored in createFunctionResult, if it got one. */
  datatype CreateRun = CreateRun(run: Run, created: Option<CreateFunctionResult>)

  const FunctionNameRequired: string := "functionName is required"
  const ExactlyOneCodeSource: string := "exactly one of zipFile or s3File is required"
  /** The message of Runtime.fromValue for a missing runtime name. */
  const RuntimeValueMissing: string := "Value cannot be null or empty!"

  /** The exception the SDK raises for a failed call. */
  function Raise(f: Failure): Exception {
    match f
    case NotFound => ResourceNotFoundException
    case Fault => ServiceException
  }

  /** The outcome of a call whose result the task does not use further. */
  function Completed<T>(r: Response<T>): (o: Outcome)
    ensures o.Done? <==> r.Ok?
    ensures o == Threw(ResourceNotFoundException) <==> r == Err(NotFound)
  {
    match r
    case Ok(_) => Done
    case Err(f) => Threw(Raise(f))
  }

  /** validateCreateOrUpdateFunctionVariables: a name, and exactly one code source that validates. */
  function ValidateVariables(functionName: Option<string>, zipFile: Option<string>, s3File: Option<S3File>)
    : (r: Outcome)
    ensures r.Done? <==>
      functionName.Some? && zipFile.Some? != s3File.Some? && (s3File.Some? ==> s3File.value.invalid.None?)
    ensures functionName.None? ==> r == Threw(GradleException(FunctionNameRequired))
    ensures functionName.Some? && zipFile.Some? == s3File.Some? ==> r == Threw(GradleException(ExactlyOneCodeSource))
    ensures r.Threw? ==> r.exception.GradleException? || r.exception.InvalidS3File?
  {
    if functionName.None? then
      Threw(GradleException(FunctionNameRequired))
    else if (zipFile.None? && s3File.None?) || (zipFile.Some? && s3File.Some?) then
      Threw(GradleException(ExactlyOneCodeSource))
    else if s3File.Some? && s3File.value.invalid.Some? then
      Threw(InvalidS3File(s3File.value.invalid.value))
    else
      Done
  }

  predicate Validated(t: Settings) {
    ValidateVariables(t.functionName, t.zipFile, t.s3File).Done?
  }

  /** getOrElse: the primary value when it is set, the secondary one otherwise. */
  function GetOrElse<T>(primary: Option<T>, secondary: Option<T>): (r: Option<T>)
    ensures primary.Some? ==> r == primary
    ensures primary.None? ==> r == secondary
    ensures r.None? <==> primary.None? && secondary.None?
  {
    if primary.None? then secondary else primary
  }

  /** `chosen` is the task's value when the task sets one, and the fetched value otherwise. */
  predicate TaskFirst<T(==)>(task: Option<T>, fetched: Option<T>, chosen: Option<T>) {
    (task.Some? ==> chosen == task) && (task.None? ==> chosen == fetched)
  }

  /** A variables map that may be null, read as empty when it is. */
  function Variables(m: Option<StringMap>): StringMap {
    m.GetOr(map[])
  }

  /**
   * The environment of a configuration update: the fetched variables, then the
   * task's variables put over them.
   */
  function MergeEnvironment(server: Option<StringMap>, task: Option<StringMap>): (r: StringMap)
    ensures r.Keys == Variables(server).Keys + Variables(task).Keys
    ensures forall k :: k in Variables(task) ==> r[k] == Variables(task)[k]
    ensures forall k :: k in Variables(server) && k !in Variables(task) ==> r[k] == Variables(server)[k]
  {
    Variables(server) + Variables(task)
  }

  /** The keys untagged: those only on the left of Maps.difference(current, desired). */
  function TagKeysToRemove(current: StringMap, desired: StringMap): (r: set<string>)
    ensures forall k :: k in r <==> k in current && k !in desired
  {
    set k | k in current && k !in desired
  }

  /**
   * Runtime.fromValue. It rejects a missing or empty name with an
   * IllegalArgumentException (None here) and is taken to accept every other name.
   */
  function RuntimeFromValue(value: Option<string>): (r: Option<Runtime>)
    ensures r.Some? <==> value.Some? && value.value != ""
    ensures r.Some? ==> r.value.value == value.value
  {
    if value.None? || value.value == "" then None else Some(Runtime(value.value))
  }

  /** The configuration used when getFunction returns none: only the runtime Nodejs is set. */
  function DefaultConfiguration(): (c: FunctionConfiguration)
    ensures c.runtime == Some(Nodejs.value) && RuntimeFromValue(c.runtime) == Some(Nodejs)
    ensures c.functionName.None? && c.functionArn.None? && c.role.None? && c.handler.None?
    ensures c.description.None? && c.timeout.None? && c.memorySize.None? && c.environment.None?
  {
    FunctionConfiguration(None, None, None, Some(Nodejs.value), None, None, None, None, None)
  }

  /** The configuration getFunction returned, or the default one when it returned none. */
  function FetchedConfiguration(result: GetFunctionResult): (c: FunctionConfiguration)
    ensures result.configuration.Some? ==> c == result.configuration.value
    ensures result.configuration.None? ==> c == DefaultConfiguration()
  {
    result.configuration.GetOr(DefaultConfiguration())
  }

  /** The FunctionCode for the task's code source. */
  function CodeOf(t: Settings): (code: FunctionCode)
    requires Validated(t)
    ensures t.zipFile.Some? ==> code == ZipFile(t.zipFile.value)
    ensures t.s3File.Some? ==>
      code == S3Object(t.s3File.value.bucketName, t.s3File.value.key, t.s3File.value.objectVersion)
  {
    if t.zipFile.Some? then ZipFile(t.zipFile.value)
    else S3Object(t.s3File.value.bucketName, t.s3File.value.key, t.s3File.value.objectVersion)
  }

  /** Every field of a createFunction request is the task's own setting, code included. */
  predicate TakenFromTask(t: Settings, r: CreateFunctionRequest)
    requires Validated(t)
  {
    && r.functionName == t.functionName.value && r.code == CodeOf(t)
    && r.runtime == t.runtime && r.role == t.role && r.handler == t.handler
    && r.description == t.functionDescription && r.timeout == t.lambdaTimeout
    && r.memorySize == t.memorySize && r.publish == t.publish && r.vpcConfig == t.vpc
    && r.environment == t.environment && r.tags == t.tags && r.layers == t.layers
  }

  /** The request of createFunction: every setting as the task has it. */
  function CreateRequest(t: Settings): CreateFunctionRequest
    requires Validated(t)
  {
    CreateFunctionRequest(
      t.functionName.value, t.runtime, t.role, t.handler, t.functionDescription,
      t.lambdaTimeout, t.memorySize, t.publish, t.vpc, t.environment, t.tags, t.layers, CodeOf(t))
  }

  /** The request of updateFunctionCode; publish stays unset when the task leaves it unset. */
  function CodeRequest(t: Settings): (r: UpdateFunctionCodeRequest)
    requires Validated(t)
    ensures r.functionName == t.functionName.value && r.code == CodeOf(t) && r.publish == t.publish
    ensures r.code.ZipFile? <==> t.zipFile.Some?
  {
    UpdateFunctionCodeRequest(t.functionName.value, CodeOf(t), t.publish)
  }

  /**
   * A configuration update reconciled from the task and the fetched
   * configuration: the function name, VPC and layers are the task's; role,
   * runtime, handler, description, timeout and memory size are the task's when
   * set and the fetched ones otherwise; the environment is the fetched
   * variables overlaid with the task's.
   */
  predicate Reconciled(t: Settings, config: FunctionConfiguration, r: UpdateFunctionConfigurationRequest)
    requires Validated(t)
  {
    && r.functionName == t.functionName.value
    && TaskFirst(t.role, config.role, r.role)
    && TaskFirst(t.runtime, RuntimeFromValue(config.runtime), r.runtime)
    && TaskFirst(t.handler, config.handler, r.handler)
    && TaskFirst(t.functionDescription, config.description, r.description)
    && TaskFirst(t.lambdaTimeout, config.timeout, r.timeout)
    && TaskFirst(t.memorySize, config.memorySize, r.memorySize)
    && r.vpcConfig == t.vpc && r.layers == t.layers
    && r.environment == MergeEnvironment(config.environment, t.environment)
  }

  /**
   * The request of updateFunctionConfiguration for a fetched configuration.
   * None when Runtime.fromValue raises, which happens only when the task sets
   * no runtime and the fetched one is missing or empty.
   */
  function ConfigRequest(t: Settings, config: FunctionConfiguration): (r: Option<UpdateFunctionConfigurationRequest>)
    requires Validated(t)
    ensures r.Some? <==> t.runtime.Some? || RuntimeFromValue(config.runtime).Some?
    ensures r.Some? ==> Reconciled(t, config, r.value)
  {
    var name := GetOrElse(t.functionName, config.functionName);
    var runtime := GetOrElse(t.runtime, RuntimeFromValue(config.runtime));
    if runtime.None? then None
    else
      Some(UpdateFunctionConfigurationRequest(
        name.value,
        GetOrElse(t.role, config.role),
        runtime,
        GetOrElse(t.handler, config.handler),
        GetOrElse(t.functionDescription, config.description),
        GetOrElse(t.lambdaTimeout, config.timeout),
        t.vpc,
        MergeEnvironment(config.environment, t.environment),
        t.layers,
        GetOrElse(t.memorySize, config.memorySize)))
  }

  function AliasRequestFor(t: Settings, version: Version): AliasRequest
    requires Validated(t) && t.alias.Some?
  {
    AliasRequest(t.functionName.value, version, t.alias.value)
  }

  // The workflow, one spec function per method of the task.

  /** createOrUpdateAlias: try updateAlias, and on not-found createAlias with the same request. */
  function CreateOrUpdateAliasSpec(t: Settings, version: Version, s: ServiceState): (r: Run)
    requires Validated(t) && t.alias.Some?
    ensures Extends(s, r.state)
  {
    var req := AliasRequestFor(t, version);
    var u := UpdateAliasStep(s, req);
    if u.response.Ok? then Run(Done, u.state)
    else if u.response.failure == NotFound then
      var c := CreateAliasStep(u.state, req);
      Run(Completed(c.response), c.state)
    else Run(Threw(ServiceException), u.state)
  }

  function CreateFunctionSpec(t: Settings, s: ServiceState): (r: CreateRun)
    requires Validated(t)
    ensures Extends(s, r.run.state)
  {
    var c := CreateFunctionStep(s, CreateRequest(t));
    match c.response
    case Err(f) => CreateRun(Run(Threw(Raise(f)), c.state), None)
    case Ok(result) =>
      var run := if t.alias.Some? then CreateOrUpdateAliasSpec(t, result.version, c.state) else Run(Done, c.state);
      CreateRun(run, Some(result))
  }

  function UpdateFunctionCodeSpec(t: Settings, s: ServiceState): (r: Run)
    requires Validated(t)
    ensures Extends(s, r.state)
  {
    var u := UpdateFunctionCodeStep(s, CodeRequest(t));
    match u.response
    case Err(f) => Run(Threw(Raise(f)), u.state)
    case Ok(result) =>
      if t.alias.Some? then CreateOrUpdateAliasSpec(t, result.version, u.state) else Run(Done, u.state)
  }

  /** tagFunction: list the tags, untag the keys not desired, tag with the desired map. */
  function TagFunctionSpec(t: Settings, config: FunctionConfiguration, s: ServiceState): (r: Run)
    ensures Extends(s, r.state)
    ensures t.tags.None? ==> r == Run(Done, s)
  {
    if t.tags.None? then Run(Done, s)
    else
      var desired := t.tags.value;
      var arn := config.functionArn;
      var listed := ListTagsStep(s, arn);
      match listed.response
      case Err(f) => Run(Threw(Raise(f)), listed.state)
      case Ok(result) =>
        var current := result.tags;
        var untagged :=
          if current != map[] then UntagResourceStep(listed.state, arn, TagKeysToRemove(current, desired))
          else Step(listed.state, Ok(()));
        match untagged.response
        case Err(f) => Run(Threw(Raise(f)), untagged.state)
        case Ok(_) =>
          if desired != map[] then
            var tagged := TagResourceStep(untagged.state, arn, desired);
            Run(Completed(tagged.response), tagged.state)
          else Run(Done, untagged.state)
  }

  /** updateFunctionConfiguration: issue the reconciled configuration, then reconcile the tags. */
  function UpdateFunctionConfigurationSpec(t: Settings, config: FunctionConfiguration, s: ServiceState): (r: Run)
    requires Validated(t)
    ensures Extends(s, r.state)
  {
    match ConfigRequest(t, config)
    case None => Run(Threw(IllegalArgumentException(RuntimeValueMissing)), s)
    case Some(req) =>
      var u := UpdateFunctionConfigurationStep(s, req);
      match u.response
      case Err(f) => Run(Threw(Raise(f)), u.state)
      case Ok(_) => TagFunctionSpec(t, config, u.state)
  }

  /** The try block of createOrUpdateFunction: fetch, then configuration update, then code update. */
  function TryUpdateSpec(t: Settings, s: ServiceState): (r: Run)
    requires Validated(t)
    ensures Extends(s, r.state)
    ensures |s.log| < |r.state.log| && r.state.log[|s.log|].call == GetFunction(t.functionName.value)
  {
    var got := GetFunctionStep(s, t.functionName.value);
    match got.response
    case Err(f) => Run(Threw(Raise(f)), got.state)
    case Ok(result) =>
      var c := UpdateFunctionConfigurationSpec(t, FetchedConfiguration(result), got.state);
      ExtendsTrans(s, got.state, c.state);
      ExtendsKeeps(got.state, c.state, |s.log|);
      if c.outcome.Threw? then c
      else
        var u := UpdateFunctionCodeSpec(t, c.state);
        ExtendsTrans(s, c.state, u.state);
        ExtendsKeeps(c.state, u.state, |s.log|);
        u
  }

  /** createOrUpdateFunction: validate, run the try block, and create the function on not-found. */
  function CreateOrUpdateFunctionSpec(t: Settings, s: ServiceState): (r: CreateRun)
    ensures Extends(s, r.run.state)
  {
    var v := ValidateVariables(t.functionName, t.zipFile, t.s3File);
    if v.Threw? then CreateRun(Run(v, s), None)
    else
      var tried := TryUpdateSpec(t, s);
      if tried.outcome == Threw(ResourceNotFoundException) then CreateFunctionSpec(t, tried.state)
      else CreateRun(tried, None)
  }

  /** The task. Its settings do not change while it runs; createFunctionResult is set by createFunction. */
  class MigrateFunctionTask {
    const settings: Settings
    var createFunctionResult: Option<CreateFunctionResult>

    constructor (settings: Settings)
      ensures this.settings == settings && createFunctionResult == None
    {
      this.settings := settings;
      createFunctionResult := None;
    }

    method CreateOrUpdateFunction(lambda: LambdaClient) returns (outcome: Outcome)
      modifies this, lambda
      ensures var r := CreateOrUpdateFunctionSpec(settings, old(lambda.State()));
        && Run(outcome, lambda.State()) == r.run
        && createFunctionResult == (if r.created.Some? then r.created else old(createFunctionResult))
    {
      outcome := ValidateVariables(settings.functionName, settings.zipFile, settings.s3File);
      if outcome.Threw? {
        return;
      }
      ghost var s0 := lambda.State();
      var got := lambda.GetFunction(settings.functionName.value);
      if got.Ok? {
        var config := FetchedConfiguration(got.value);
        outcome := UpdateFunctionConfiguration(lambda, config);
        if outcome.Done? {
          outcome := UpdateFunctionCode(lambda);
        }
      } else {
        outcome := Threw(Raise(got.failure));
      }
      assert Run(outcome, lambda.State()) == TryUpdateSpec(settings, s0);
      if outcome == Threw(ResourceNotFoundException) {
        outcome := CreateFunction(lambda);
      }
    }

    method CreateFunction(lambda: LambdaClient) returns (outcome: Outcome)
      requires Validated(settings)
      modifies this, lambda
      ensures var r := CreateFunctionSpec(settings, old(lambda.State()));
        && Run(outcome, lambda.State()) == r.run
        && createFunctionResult == (if r.created.Some? then r.created else old(createFunctionResult))
    {
      var request := CreateRequest(settings);
      var created := lambda.CreateFunction(request);
      if created.Err? {
        return Threw(Raise(created.failure));
      }
      createFunctionResult := Some(created.value);
      outcome := Done;
      if settings.alias.Some? {
        outcome := CreateOrUpdateAlias(lambda, created.value.version);
      }
    }

    method UpdateFunctionCode(lambda: LambdaClient) returns (outcome: Outcome)
      requires Validated(settings)
      modifies lambda
      ensures Run(outcome, lambda.State()) == UpdateFunctionCodeSpec(settings, old(lambda.State()))
    {
      var request := UpdateFunctionCodeRequest(settings.functionName.value, CodeOf(settings), None);
      if settings.publish.Some? {
        request := request.(publish := settings.publish);
      }
      assert request == CodeRequest(settings);
      var updated := lambda.UpdateFunctionCode(request);
      if updated.Err? {
        return Threw(Raise(updated.failure));
      }
      outcome := Done;
      if settings.alias.Some? {
        outcome := CreateOrUpdateAlias(lambda, updated.value.version);
      }
    }

    method UpdateFunctionConfiguration(lambda: LambdaClient, config: FunctionConfiguration) returns (outcome: Outcome)
      requires Validated(settings)
      modifies lambda
      ensures Run(outcome, lambda.State()) == UpdateFunctionConfigurationSpec(settings, config, old(lambda.State()))
    {
      var runtime := GetOrElse(settings.runtime, RuntimeFromValue(config.runtime));
      if runtime.None? {
        return Threw(IllegalArgumentException(RuntimeValueMissing));
      }
      var environment: StringMap := map[];
      if config.environment.Some? {
        environment := environment + config.environment.value;
      }
      if settings.environment.Some? {
        environment := environment + settings.environment.value;
      }
      assert environment == MergeEnvironment(config.environment, settings.environment);
      var request := UpdateFunctionConfigurationRequest(
        GetOrElse(settings.functionName, config.functionName).value,
        GetOrElse(settings.role, config.role),
        runtime,
        GetOrElse(settings.handler, config.handler),
        GetOrElse(settings.functionDescription, config.description),
        GetOrElse(settings.lambdaTimeout, config.timeout),
        settings.vpc,
        environment,
        settings.layers,
        GetOrElse(settings.memorySize, config.memorySize));
      var updated := lambda.UpdateFunctionConfiguration(request);
      if updated.Err? {
        return Threw(Raise(updated.failure));
      }
      outcome := TagFunction(lambda, config);
    }

    method CreateOrUpdateAlias(lambda: LambdaClient, version: Version) returns (outcome: Outcome)
      requires Validated(settings) && settings.alias.Some?
      modifies lambda
      ensures Run(outcome, lambda.State()) == CreateOrUpdateAliasSpec(settings, version, old(lambda.State()))
    {
      outcome := UpdateAlias(lambda, version);
      if outcome == Threw(ResourceNotFoundException) {
        outcome := CreateAlias(lambda, version);
      }
    }

    method UpdateAlias(lambda: LambdaClient, version: Version) returns (outcome: Outcome)
      requires Validated(settings) && settings.alias.Some?
      modifies lambda
      ensures var u := UpdateAliasStep(old(lambda.State()), AliasRequestFor(settings, version));
        outcome == Completed(u.response) && lambda.State() == u.state
    {
      var updated := lambda.UpdateAlias(AliasRequest(settings.functionName.value, version, settings.alias.value));
      outcome := Completed(updated);
    }

    method CreateAlias(lambda: LambdaClient, version: Version) returns (outcome: Outcome)
      requires Validated(settings) && settings.alias.Some?
      modifies lambda
      ensures var c := CreateAliasStep(old(lambda.State()), AliasRequestFor(settings, version));
        outcome == Completed(c.response) && lambda.State() == c.state
    {
      var created := lambda.CreateAlias(AliasRequest(settings.functionName.value, version, settings.alias.value));
      outcome := Completed(created);
    }

    method TagFunction(lambda: LambdaClient, config: FunctionConfiguration) returns (outcome: Outcome)
      modifies lambda
      ensures Run(outcome, lambda.State()) == TagFunctionSpec(settings, config, old(lambda.State()))
    {
      outcome := Done;
      if settings.tags.Some? {
        var desired := settings.tags.value;
        var listed := lambda.ListTags(config.functionArn);
        if listed.Err? {
          return Threw(Raise(listed.failure));
        }
        if listed.value.tags != map[] {
          var untagged := lambda.UntagResource(config.functionArn, TagKeysToRemove(listed.value.tags, desired));
          if untagged.Err? {
            return Threw(Raise(untagged.failure));
          }
        }
        if desired != map[] {
          var tagged := lambda.TagResource(config.functionArn, desired);
          outcome := Completed(tagged);
        }
      }
    }
  }
}
