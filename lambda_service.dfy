/**
 * An abstract AWS Lambda service. Its state holds the functions by name, the
 * tags by resource ARN, the aliases, and a log of every call together with how
 * it failed. Each API operation is a pure step function on that state. The
 * class LambdaClient holds the same state in fields; its methods are proved
 * equal to the step functions.
 *
 * Failures that come from outside this workflow, such as a concurrent deletion,
 * throttling or a permission error, are given by `injected`. It maps a position
 * in the log to the failure of the call made at that position. A call made at
 * a position with no injected failure behaves as the state says.
 */
module LambdaService {
  import opened Wrappers
  import opened LambdaModel

  /** A deployed function: its configuration (which may be withheld), its code, its published version count. */
  datatype FunctionRecord = FunctionRecord(
    configuration: Option<FunctionConfiguration>,
    code: FunctionCode,
    published: nat)

  datatype AliasKey = AliasKey(functionName: string, name: string)

  datatype ServiceState = ServiceState(
    functions: map<string, FunctionRecord>,
    tags: map<string, StringMap>,
    aliases: map<AliasKey, Version>,
    log: seq<Entry>,
    injected: map<nat, Failure>)

  /** The state after a call, and the call's response. */
  datatype Step<T> = Step(state: ServiceState, response: Response<T>)

  function FunctionArn(name: string): string {
    "arn:aws:lambda:function:" + name
  }

  function AliasArn(functionName: string, alias: string): string {
    FunctionArn(functionName) + ":" + alias
  }

  /** The failure injected for the next call, if any. */
  function Scheduled(s: ServiceState): Option<Failure> {
    if |s.log| in s.injected then Some(s.injected[|s.log|]) else None
  }

  /** No failure is injected for this call or any later one. */
  predicate Quiet(s: ServiceState) {
    forall i :: i in s.injected ==> i < |s.log|
  }

  /** `s'` is `s` with some calls appended to its log and the same failure schedule. */
  predicate Extends(s: ServiceState, s': ServiceState) {
    s'.injected == s.injected && |s.log| <= |s'.log| && s'.log[..|s.log|] == s.log
  }

  /** The calls logged between `s` and `s'`. */
  function Delta(s: ServiceState, s': ServiceState): seq<Entry>
    requires Extends(s, s')
  {
    s'.log[|s.log|..]
  }

  lemma ExtendsTrans(s: ServiceState, s1: ServiceState, s2: ServiceState)
    requires Extends(s, s1) && Extends(s1, s2)
    ensures Extends(s, s2)
  {
    assert s2.log[..|s.log|] == s2.log[..|s1.log|][..|s.log|];
  }

  lemma ExtendsKeeps(s: ServiceState, s': ServiceState, i: nat)
    requires Extends(s, s') && i < |s.log|
    ensures s'.log[i] == s.log[i]
  {
    assert s'.log[..|s.log|][i] == s'.log[i];
  }

  function Logged<T>(s: ServiceState, c: Call, r: Response<T>): (step: Step<T>)
    ensures step.state == s.(log := s.log + [Entry(c, r.Failed())])
    ensures step.response == r
  {
    Step(s.(log := s.log + [Entry(c, r.Failed())]), r)
  }

  function RuntimeName(runtime: Option<Runtime>): Option<string> {
    match runtime
    case Some(r) => Some(r.value)
    case None => None
  }

  /** The configuration a function gets from createFunction. */
  function CreatedConfiguration(req: CreateFunctionRequest): FunctionConfiguration {
    FunctionConfiguration(
      Some(req.functionName), Some(FunctionArn(req.functionName)),
      req.role, RuntimeName(req.runtime), req.handler, req.description,
      req.timeout, req.memorySize, req.environment)
  }

  /** The configuration a function gets from updateFunctionConfiguration: the request's values. */
  function UpdatedConfiguration(req: UpdateFunctionConfigurationRequest): FunctionConfiguration {
    FunctionConfiguration(
      Some(req.functionName), Some(FunctionArn(req.functionName)),
      req.role, RuntimeName(req.runtime), req.handler, req.description,
      req.timeout, req.memorySize, Some(req.environment))
  }

  /** The version count after a code update, and the version it reports. */
  function NextPublished(published: nat, publish: Option<bool>): nat {
    if publish == Some(true) then published + 1 else published
  }

  function ReportedVersion(published: nat, publish: Option<bool>): Version {
    if publish == Some(true) then Published(published) else Latest
  }

  function GetFunctionStep(s: ServiceState, name: string): (r: Step<GetFunctionResult>)
    ensures r.state == s.(log := s.log + [Entry(GetFunction(name), r.response.Failed())])
    ensures Scheduled(s).None? ==> (r.response.Ok? <==> name in s.functions)
    ensures r.response.Ok? ==> name in s.functions && r.response.value.configuration == s.functions[name].configuration
  {
    var response :=
      if Scheduled(s).Some? then Err(Scheduled(s).value)
      else if name in s.functions then Ok(GetFunctionResult(s.functions[name].configuration))
      else Err(NotFound);
    Logged(s, GetFunction(name), response)
  }

  /** createFunction fails with a conflict (a Fault) when the name is taken. */
  function CreateFunctionStep(s: ServiceState, req: CreateFunctionRequest): (r: Step<CreateFunctionResult>)
    ensures r.state.log == s.log + [Entry(CreateFunction(req), r.response.Failed())]
    ensures r.state.injected == s.injected
    ensures r.response.Ok? <==> Scheduled(s).None? && req.functionName !in s.functions
    ensures r.response.Err? ==> r.state == s.(log := r.state.log)
    ensures r.response.Ok? ==>
      && r.state.functions == s.functions[req.functionName :=
           FunctionRecord(Some(CreatedConfiguration(req)), req.code, NextPublished(0, req.publish))]
      && r.state.tags == s.tags[FunctionArn(req.functionName) := req.tags.GetOr(map[])]
      && r.state.aliases == s.aliases
      && r.response.value == CreateFunctionResult(
           FunctionArn(req.functionName), ReportedVersion(NextPublished(0, req.publish), req.publish))
  {
    if Scheduled(s).Some? then
      Logged(s, CreateFunction(req), Err(Scheduled(s).value))
    else if req.functionName in s.functions then
      Logged(s, CreateFunction(req), Err(Fault))
    else
      var name := req.functionName;
      var published := NextPublished(0, req.publish);
      var s1 := s.(functions := s.functions[name := FunctionRecord(Some(CreatedConfiguration(req)), req.code, published)],
                   tags := s.tags[FunctionArn(name) := req.tags.GetOr(map[])]);
      Logged(s1, CreateFunction(req),
        Ok(CreateFunctionResult(FunctionArn(name), ReportedVersion(published, req.publish))))
  }

  function UpdateFunctionConfigurationStep(s: ServiceState, req: UpdateFunctionConfigurationRequest)
    : (r: Step<UpdateFunctionConfigurationResult>)
    ensures r.state.log == s.log + [Entry(UpdateFunctionConfiguration(req), r.response.Failed())]
    ensures r.state.injected == s.injected && r.state.tags == s.tags && r.state.aliases == s.aliases
    ensures Scheduled(s).None? ==> (r.response.Ok? <==> req.functionName in s.functions)
    ensures r.response.Err? ==> r.state.functions == s.functions
    ensures r.response.Ok? ==>
      && req.functionName in s.functions
      && r.state.functions == s.functions[req.functionName :=
           s.functions[req.functionName].(configuration := Some(UpdatedConfiguration(req)))]
  {
    if Scheduled(s).Some? then
      Logged(s, UpdateFunctionConfiguration(req), Err(Scheduled(s).value))
    else if req.functionName !in s.functions then
      Logged(s, UpdateFunctionConfiguration(req), Err(NotFound))
    else
      var name := req.functionName;
      var s1 := s.(functions := s.functions[name := s.functions[name].(configuration := Some(UpdatedConfiguration(req)))]);
      Logged(s1, UpdateFunctionConfiguration(req), Ok(UpdateFunctionConfigurationResult(FunctionArn(name))))
  }

  /** updateFunctionCode replaces the code; with publish set it also publishes a new numbered version. */
  function UpdateFunctionCodeStep(s: ServiceState, req: UpdateFunctionCodeRequest): (r: Step<UpdateFunctionCodeResult>)
    ensures r.state.log == s.log + [Entry(UpdateFunctionCode(req), r.response.Failed())]
    ensures r.state.injected == s.injected && r.state.tags == s.tags && r.state.aliases == s.aliases
    ensures Scheduled(s).None? ==> (r.response.Ok? <==> req.functionName in s.functions)
    ensures r.response.Err? ==> r.state.functions == s.functions
    ensures r.response.Ok? ==>
      && req.functionName in s.functions
      && var p := NextPublished(s.functions[req.functionName].published, req.publish);
      && r.state.functions == s.functions[req.functionName :=
           s.functions[req.functionName].(code := req.code, published := p)]
      && r.response.value == UpdateFunctionCodeResult(FunctionArn(req.functionName), ReportedVersion(p, req.publish))
  {
    if Scheduled(s).Some? then
      Logged(s, UpdateFunctionCode(req), Err(Scheduled(s).value))
    else if req.functionName !in s.functions then
      Logged(s, UpdateFunctionCode(req), Err(NotFound))
    else
      var name := req.functionName;
      var record := s.functions[name];
      var published := NextPublished(record.published, req.publish);
      var s1 := s.(functions := s.functions[name := record.(code := req.code, published := published)]);
      Logged(s1, UpdateFunctionCode(req),
        Ok(UpdateFunctionCodeResult(FunctionArn(name), ReportedVersion(published, req.publish))))
  }

  /** The tag calls reject a request without a resource (a Fault) and report an unknown one as not found. */
  function ResourceFailure(s: ServiceState, resource: Option<string>): Option<Failure> {
    if Scheduled(s).Some? then Scheduled(s)
    else if resource.None? then Some(Fault)
    else if resource.value !in s.tags then Some(NotFound)
    else None
  }

  function ListTagsStep(s: ServiceState, resource: Option<string>): (r: Step<ListTagsResult>)
    ensures r.state == s.(log := s.log + [Entry(ListTags(resource), r.response.Failed())])
    ensures r.response.Ok? <==> ResourceFailure(s, resource).None?
    ensures r.response.Ok? ==> resource.Some? && resource.value in s.tags && r.response.value.tags == s.tags[resource.value]
  {
    match ResourceFailure(s, resource)
    case Some(f) => Logged(s, ListTags(resource), Err(f))
    case None => Logged(s, ListTags(resource), Ok(ListTagsResult(s.tags[resource.value])))
  }

  /** untagResource deletes the given keys from the resource's tags. */
  function UntagResourceStep(s: ServiceState, resource: Option<string>, keys: set<string>): (r: Step<()>)
    ensures r.state.log == s.log + [Entry(UntagResource(resource, keys), r.response.Failed())]
    ensures r.state.injected == s.injected && r.state.functions == s.functions && r.state.aliases == s.aliases
    ensures r.response.Ok? <==> ResourceFailure(s, resource).None?
    ensures r.response.Err? ==> r.state.tags == s.tags
    ensures r.response.Ok? ==>
      && resource.Some? && resource.value in s.tags
      && r.state.tags == s.tags[resource.value := s.tags[resource.value] - keys]
  {
    match ResourceFailure(s, resource)
    case Some(f) => Logged(s, UntagResource(resource, keys), Err(f))
    case None =>
      var arn := resource.value;
      Logged(s.(tags := s.tags[arn := s.tags[arn] - keys]), UntagResource(resource, keys), Ok(()))
  }

  /** tagResource adds the given entries to the resource's tags, overwriting equal keys. */
  function TagResourceStep(s: ServiceState, resource: Option<string>, tags: StringMap): (r: Step<()>)
    ensures r.state.log == s.log + [Entry(TagResource(resource, tags), r.response.Failed())]
    ensures r.state.injected == s.injected && r.state.functions == s.functions && r.state.aliases == s.aliases
    ensures r.response.Ok? <==> ResourceFailure(s, resource).None?
    ensures r.response.Err? ==> r.state.tags == s.tags
    ensures r.response.Ok? ==>
      && resource.Some? && resource.value in s.tags
      && r.state.tags == s.tags[resource.value := s.tags[resource.value] + tags]
  {
    match ResourceFailure(s, resource)
    case Some(f) => Logged(s, TagResource(resource, tags), Err(f))
    case None =>
      var arn := resource.value;
      Logged(s.(tags := s.tags[arn := s.tags[arn] + tags]), TagResource(resource, tags), Ok(()))
  }

  /** updateAlias re-points an existing alias; a missing function or alias is not found. */
  function UpdateAliasStep(s: ServiceState, req: AliasRequest): (r: Step<AliasResult>)
    ensures r.state.log == s.log + [Entry(UpdateAlias(req), r.response.Failed())]
    ensures r.state.injected == s.injected && r.state.functions == s.functions && r.state.tags == s.tags
    ensures Scheduled(s).None? ==>
      (r.response.Ok? <==> req.functionName in s.functions && AliasKey(req.functionName, req.name) in s.aliases)
    ensures Scheduled(s).None? && r.response.Err? ==> r.response.failure == NotFound
    ensures r.response.Err? ==> r.state.aliases == s.aliases
    ensures r.response.Ok? ==> r.state.aliases == s.aliases[AliasKey(req.functionName, req.name) := req.functionVersion]
  {
    var key := AliasKey(req.functionName, req.name);
    if Scheduled(s).Some? then
      Logged(s, UpdateAlias(req), Err(Scheduled(s).value))
    else if req.functionName !in s.functions || key !in s.aliases then
      Logged(s, UpdateAlias(req), Err(NotFound))
    else
      Logged(s.(aliases := s.aliases[key := req.functionVersion]), UpdateAlias(req),
        Ok(AliasResult(AliasArn(req.functionName, req.name))))
  }

  /** createAlias adds a new alias; a missing function is not found, an existing alias a conflict (a Fault). */
  function CreateAliasStep(s: ServiceState, req: AliasRequest): (r: Step<AliasResult>)
    ensures r.state.log == s.log + [Entry(CreateAlias(req), r.response.Failed())]
    ensures r.state.injected == s.injected && r.state.functions == s.functions && r.state.tags == s.tags
    ensures Scheduled(s).None? ==>
      (r.response.Ok? <==> req.functionName in s.functions && AliasKey(req.functionName, req.name) !in s.aliases)
    ensures r.response.Err? ==> r.state.aliases == s.aliases
    ensures r.response.Ok? ==> r.state.aliases == s.aliases[AliasKey(req.functionName, req.name) := req.functionVersion]
  {
    var key := AliasKey(req.functionName, req.name);
    if Scheduled(s).Some? then
      Logged(s, CreateAlias(req), Err(Scheduled(s).value))
    else if req.functionName !in s.functions then
      Logged(s, CreateAlias(req), Err(NotFound))
    else if key in s.aliases then
      Logged(s, CreateAlias(req), Err(Fault))
    else
      Logged(s.(aliases := s.aliases[key := req.functionVersion]), CreateAlias(req),
        Ok(AliasResult(AliasArn(req.functionName, req.name))))
  }

  /** The Lambda client the task drives. Its methods are the step functions above, done in place. */
  class LambdaClient {
    var functions: map<string, FunctionRecord>
    var tags: map<string, StringMap>
    var aliases: map<AliasKey, Version>
    var log: seq<Entry>
    const injected: map<nat, Failure>

    function State(): ServiceState
      reads this
    {
      ServiceState(functions, tags, aliases, log, injected)
    }

    constructor (initial: ServiceState)
      ensures State() == initial
    {
      functions := initial.functions;
      tags := initial.tags;
      aliases := initial.aliases;
      log := initial.log;
      injected := initial.injected;
    }

    /** The failure injected for the call about to be made, if any. */
    method Injected() returns (f: Option<Failure>)
      ensures f == Scheduled(State())
    {
      f := if |log| in injected then Some(injected[|log|]) else None;
    }

    method GetFunction(name: string) returns (r: Response<GetFunctionResult>)
      modifies this
      ensures Step(State(), r) == GetFunctionStep(old(State()), name)
    {
      var f := Injected();
      if f.Some? {
        r := Err(f.value);
      } else if name in functions {
        r := Ok(GetFunctionResult(functions[name].configuration));
      } else {
        r := Err(NotFound);
      }
      log := log + [Entry(Call.GetFunction(name), r.Failed())];
    }

    method CreateFunction(req: CreateFunctionRequest) returns (r: Response<CreateFunctionResult>)
      modifies this
      ensures Step(State(), r) == CreateFunctionStep(old(State()), req)
    {
      var f := Injected();
      if f.Some? {
        r := Err(f.value);
      } else if req.functionName in functions {
        r := Err(Fault);
      } else {
        var name := req.functionName;
        var published := NextPublished(0, req.publish);
        functions := functions[name := FunctionRecord(Some(CreatedConfiguration(req)), req.code, published)];
        tags := tags[FunctionArn(name) := req.tags.GetOr(map[])];
        r := Ok(CreateFunctionResult(FunctionArn(name), ReportedVersion(published, req.publish)));
      }
      log := log + [Entry(Call.CreateFunction(req), r.Failed())];
    }

    method UpdateFunctionConfiguration(req: UpdateFunctionConfigurationRequest)
      returns (r: Response<UpdateFunctionConfigurationResult>)
      modifies this
      ensures Step(State(), r) == UpdateFunctionConfigurationStep(old(State()), req)
    {
      var f := Injected();
      if f.Some? {
        r := Err(f.value);
      } else if req.functionName !in functions {
        r := Err(NotFound);
      } else {
        var name := req.functionName;
        functions := functions[name := functions[name].(configuration := Some(UpdatedConfiguration(req)))];
        r := Ok(UpdateFunctionConfigurationResult(FunctionArn(name)));
      }
      log := log + [Entry(Call.UpdateFunctionConfiguration(req), r.Failed())];
    }

    method UpdateFunctionCode(req: UpdateFunctionCodeRequest) returns (r: Response<UpdateFunctionCodeResult>)
      modifies this
      ensures Step(State(), r) == UpdateFunctionCodeStep(old(State()), req)
    {
      var f := Injected();
      if f.Some? {
        r := Err(f.value);
      } else if req.functionName !in functions {
        r := Err(NotFound);
      } else {
        var name := req.functionName;
        var record := functions[name];
        var published := NextPublished(record.published, req.publish);
        functions := functions[name := record.(code := req.code, published := published)];
        r := Ok(UpdateFunctionCodeResult(FunctionArn(name), ReportedVersion(published, req.publish)));
      }
      log := log + [Entry(Call.UpdateFunctionCode(req), r.Failed())];
    }

    /** The failure of a tag call on `resource`, if it fails. */
    method CheckResource(resource: Option<string>) returns (f: Option<Failure>)
      ensures f == ResourceFailure(State(), resource)
    {
      f := Injected();
      if f.None? {
        if resource.None? {
          f := Some(Fault);
        } else if resource.value !in tags {
          f := Some(NotFound);
        }
      }
    }

    method ListTags(resource: Option<string>) returns (r: Response<ListTagsResult>)
      modifies this
      ensures Step(State(), r) == ListTagsStep(old(State()), resource)
    {
      var f := CheckResource(resource);
      if f.Some? {
        r := Err(f.value);
      } else {
        r := Ok(ListTagsResult(tags[resource.value]));
      }
      log := log + [Entry(Call.ListTags(resource), r.Failed())];
    }

    method UntagResource(resource: Option<string>, keys: set<string>) returns (r: Response<()>)
      modifies this
      ensures Step(State(), r) == UntagResourceStep(old(State()), resource, keys)
    {
      var f := CheckResource(resource);
      if f.Some? {
        r := Err(f.value);
      } else {
        var arn := resource.value;
        tags := tags[arn := tags[arn] - keys];
        r := Ok(());
      }
      log := log + [Entry(Call.UntagResource(resource, keys), r.Failed())];
    }

    method TagResource(resource: Option<string>, newTags: StringMap) returns (r: Response<()>)
      modifies this
      ensures Step(State(), r) == TagResourceStep(old(State()), resource, newTags)
    {
      var f := CheckResource(resource);
      if f.Some? {
        r := Err(f.value);
      } else {
        var arn := resource.value;
        tags := tags[arn := tags[arn] + newTags];
        r := Ok(());
      }
      log := log + [Entry(Call.TagResource(resource, newTags), r.Failed())];
    }

    method UpdateAlias(req: AliasRequest) returns (r: Response<AliasResult>)
      modifies this
      ensures Step(State(), r) == UpdateAliasStep(old(State()), req)
    {
      var key := AliasKey(req.functionName, req.name);
      var f := Injected();
      if f.Some? {
        r := Err(f.value);
      } else if req.functionName !in functions || key !in aliases {
        r := Err(NotFound);
      } else {
        aliases := aliases[key := req.functionVersion];
        r := Ok(AliasResult(AliasArn(req.functionName, req.name)));
      }
      log := log + [Entry(Call.UpdateAlias(req), r.Failed())];
    }

    method CreateAlias(req: AliasRequest) returns (r: Response<AliasResult>)
      modifies this
      ensures Step(State(), r) == CreateAliasStep(old(State()), req)
    {
      var key := AliasKey(req.functionName, req.name);
      var f := Injected();
      if f.Some? {
        r := Err(f.value);
      } else if req.functionName !in functions {
        r := Err(NotFound);
      } else if key in aliases {
        r := Err(Fault);
      } else {
        aliases := aliases[key := req.functionVersion];
        r := Ok(AliasResult(AliasArn(req.functionName, req.name)));
      }
      log := log + [Entry(Call.CreateAlias(req), r.Failed())];
    }
  }
}
