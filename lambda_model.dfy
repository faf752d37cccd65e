/**
 * The values exchanged with the AWS Lambda service: function configurations,
 * requests, results, and the entries of the call log. Every reference the
 * Java SDK lets be null is an Option here.
 */
module LambdaModel {
  import opened Wrappers

  type StringMap = map<string, string>

  /** A value of the SDK's Runtime enumeration, named by its string form. */
  datatype Runtime = Runtime(value: string)

  /** Runtime.Nodejs, the runtime of the configuration used when none is fetched. */
  const Nodejs: Runtime := Runtime("nodejs")

  /** An opaque network placement, passed through unchanged. */
  datatype VpcConfig = VpcConfig(subnetIds: seq<string>, securityGroupIds: seq<string>)

  /** The code payload: a local archive (its bytes are not modelled) or an S3 object. */
  datatype FunctionCode =
    | ZipFile(path: string)
    | S3Object(bucket: Option<string>, key: Option<string>, objectVersion: Option<string>)

  /** A function version as the service reports it: $LATEST or a published number. */
  datatype Version = Latest | Published(number: nat)

  /** The part of a fetched FunctionConfiguration that the task reads. */
  datatype FunctionConfiguration = FunctionConfiguration(
    functionName: Option<string>,
    functionArn: Option<string>,
    role: Option<string>,
    runtime: Option<string>,
    handler: Option<string>,
    description: Option<string>,
    timeout: Option<int>,
    memorySize: Option<int>,
    environment: Option<StringMap>)

  datatype CreateFunctionRequest = CreateFunctionRequest(
    functionName: string,
    runtime: Option<Runtime>,
    role: Option<string>,
    handler: Option<string>,
    description: Option<string>,
    timeout: Option<int>,
    memorySize: Option<int>,
    publish: Option<bool>,
    vpcConfig: Option<VpcConfig>,
    environment: Option<StringMap>,
    tags: Option<StringMap>,
    layers: Option<seq<string>>,
    code: FunctionCode)

  datatype UpdateFunctionConfigurationRequest = UpdateFunctionConfigurationRequest(
    functionName: string,
    role: Option<string>,
    runtime: Option<Runtime>,
    handler: Option<string>,
    description: Option<string>,
    timeout: Option<int>,
    vpcConfig: Option<VpcConfig>,
    environment: StringMap,
    layers: Option<seq<string>>,
    memorySize: Option<int>)

  datatype UpdateFunctionCodeRequest = UpdateFunctionCodeRequest(
    functionName: string,
    code: FunctionCode,
    publish: Option<bool>)

  /** The request of both updateAlias and createAlias. */
  datatype AliasRequest = AliasRequest(functionName: string, functionVersion: Version, name: string)

  datatype GetFunctionResult = GetFunctionResult(configuration: Option<FunctionConfiguration>)
  datatype CreateFunctionResult = CreateFunctionResult(functionArn: string, version: Version)
  datatype UpdateFunctionCodeResult = UpdateFunctionCodeResult(functionArn: string, version: Version)
  datatype UpdateFunctionConfigurationResult = UpdateFunctionConfigurationResult(functionArn: string)
  datatype ListTagsResult = ListTagsResult(tags: StringMap)
  datatype AliasResult = AliasResult(aliasArn: string)

  /** How a call can fail: ResourceNotFoundException, or any other service error. */
  datatype Failure = NotFound | Fault

  datatype Response<T> = Ok(value: T) | Err(failure: Failure) {
    /** The failure of this response, if it is one. */
    function Failed(): Option<Failure> {
      match this
      case Ok(_) => None
      case Err(f) => Some(f)
    }
  }

  /** One call of the Lambda API, with its request. */
  datatype Call =
    | GetFunction(functionName: string)
    | CreateFunction(create: CreateFunctionRequest)
    | UpdateFunctionConfiguration(configuration: UpdateFunctionConfigurationRequest)
    | UpdateFunctionCode(code: UpdateFunctionCodeRequest)
    | ListTags(resource: Option<string>)
    | UntagResource(resource: Option<string>, tagKeys: set<string>)
    | TagResource(resource: Option<string>, tags: StringMap)
    | UpdateAlias(alias: AliasRequest)
    | CreateAlias(alias: AliasRequest)
  {
    predicate IsTagCall() {
      ListTags? || UntagResource? || TagResource?
    }

    predicate IsAliasCall() {
      UpdateAlias? || CreateAlias?
    }
  }

  /** A logged call and how it failed, if it did. */
  datatype Entry = Entry(call: Call, failed: Option<Failure>)
}
