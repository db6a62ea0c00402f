/**
 * `WrapperManager.create_wrapper` of src/app/wrapper/llm_wrapper_manager.py:
 * checks the shape of a decoded JSON configuration, fills in defaults,
 * replaces the string "torch.bfloat16" by the bfloat16 dtype, and builds an
 * `LLMWrapper` from the result.
 *
 * Decoding itself is a parameter: `None` when the text is not valid JSON,
 * otherwise the decoded value.
 */
module WrapperManager {
  import opened Outcomes
  import opened Json
  import opened LlmModel
  import opened LlmWrapper

  /** The Python exception class a rejected configuration surfaces as. */
  datatype ExceptionKind = ValueError | AttributeError

  /** Why a configuration was rejected. */
  datatype ConfigError =
    | InvalidJson          // the text does not decode
    | NotAnObject          // the decoded value is not an object
    | ArgsWithoutGet       // "args" is not an object, so asking it for "prompting" fails
    | ArgsNotObject        // the explicit check on "args" (it comes too late to fire)
    | PromptingNotObject
    | DeploymentNotObject
  {
    function Kind(): ExceptionKind
    {
      if this == ArgsWithoutGet then AttributeError else ValueError
    }
  }

  /** What the manager hands to the wrapper, before the dtype is normalised. */
  datatype WrapperConfig = WrapperConfig(
    model: Json,
    modeltyp: Json,
    prompting: map<string, Json>,
    deployment: map<string, Json>,
    usesChatTemplate: Json)

  const EmptyObject: Json := JObject(map[])

  /** The deployment key whose string value is turned into a dtype. */
  const DtypeKey: string := "torch_dtype"
  const BFloat16Name: string := "torch.bfloat16"

  /** `config_data.get("args", {})`. */
  function ArgsOf(config: map<string, Json>): Json
  {
    Get(config, "args", EmptyObject)
  }

  /** `args.get(key, {})`, for an `args` that is an object. */
  function SectionOf(args: Json, key: string): Json
    requires args.JObject?
  {
    Get(args.fields, key, EmptyObject)
  }

  /** The shape checks and defaults, in the order the source applies them. */
  function ParseConfig(decoded: Option<Json>): (r: Result<WrapperConfig, ConfigError>)
    ensures decoded == None ==> r == Err(InvalidJson)
    ensures decoded != None && !decoded.value.JObject? ==> r == Err(NotAnObject)
    ensures r != Err(ArgsNotObject)
    ensures r.Ok? <==>
              decoded != None && decoded.value.JObject? && ArgsOf(decoded.value.fields).JObject? &&
              SectionOf(ArgsOf(decoded.value.fields), "prompting").JObject? &&
              SectionOf(ArgsOf(decoded.value.fields), "deployment").JObject?
    ensures r == Err(ArgsWithoutGet) <==>
              decoded != None && decoded.value.JObject? && !ArgsOf(decoded.value.fields).JObject?
    ensures r == Err(PromptingNotObject) <==>
              decoded != None && decoded.value.JObject? && ArgsOf(decoded.value.fields).JObject? &&
              !SectionOf(ArgsOf(decoded.value.fields), "prompting").JObject?
    ensures r == Err(DeploymentNotObject) <==>
              decoded != None && decoded.value.JObject? && ArgsOf(decoded.value.fields).JObject? &&
              SectionOf(ArgsOf(decoded.value.fields), "prompting").JObject? &&
              !SectionOf(ArgsOf(decoded.value.fields), "deployment").JObject?
    ensures r.Ok? ==>
              decoded != None && decoded.value.JObject? &&
              var config := decoded.value.fields;
              && r.value.model == Get(config, "model", JNull)
              && r.value.modeltyp == Get(config, "modeltyp", JNull)
              && r.value.usesChatTemplate == Get(config, "uses_chat_template", JNull)
              && JObject(r.value.prompting) == SectionOf(ArgsOf(config), "prompting")
              && JObject(r.value.deployment) == SectionOf(ArgsOf(config), "deployment")
    ensures r.Ok? && "args" !in decoded.value.fields ==> r.value.prompting == map[] && r.value.deployment == map[]
    ensures r.Err? ==> (r.error.Kind() == AttributeError <==> r.error == ArgsWithoutGet)
  {
    match decoded
    case None => Err(InvalidJson)
    case Some(data) =>
      if !data.JObject? then Err(NotAnObject)
      else
        var config := data.fields;
        var model := Get(config, "model", JNull);
        var modeltyp := Get(config, "modeltyp", JNull);
        var usesChatTemplate := Get(config, "uses_chat_template", JNull);
        var args := ArgsOf(config);
        if !args.JObject? then Err(ArgsWithoutGet)
        else
          var prompting := SectionOf(args, "prompting");
          var deployment := SectionOf(args, "deployment");
          if !args.JObject? then Err(ArgsNotObject)
          else if !prompting.JObject? then Err(PromptingNotObject)
          else if !deployment.JObject? then Err(DeploymentNotObject)
          else Ok(WrapperConfig(model, modeltyp, prompting.fields, deployment.fields, usesChatTemplate))
  }

  /**
   * The deployment options as the wrapper receives them: the same keys and
   * values, except that a "torch_dtype" equal to the string "torch.bfloat16"
   * becomes the bfloat16 dtype.
   */
  function NormaliseDtype(deployment: map<string, Json>): (r: map<string, DeployValue>)
    ensures r.Keys == deployment.Keys
    ensures forall k :: k in deployment && k != DtypeKey ==> r[k] == Decoded(deployment[k])
    ensures DtypeKey in deployment ==>
              (r[DtypeKey] == BFloat16 <==> deployment[DtypeKey] == JString(BFloat16Name))
    ensures DtypeKey in deployment && deployment[DtypeKey] != JString(BFloat16Name) ==>
              r[DtypeKey] == Decoded(deployment[DtypeKey])
  {
    var lifted := map k | k in deployment :: Decoded(deployment[k]);
    if DtypeKey in deployment && deployment[DtypeKey] == JString(BFloat16Name) then lifted[DtypeKey := BFloat16]
    else lifted
  }

  /**
   * Builds a wrapper from a decoded configuration; `rss` and `init` are what the
   * wrapper's construction meets in the outside world.
   */
  method CreateWrapper(decoded: Option<Json>, rss: nat, init: Outcome<Engine>) returns (r: Result<LLMWrapper, ConfigError>)
    ensures r.Err? <==> ParseConfig(decoded).Err?
    ensures r.Err? ==> r.error == ParseConfig(decoded).error
    ensures r.Ok? ==>
              var config := ParseConfig(decoded).value;
              && fresh(r.value) && fresh(r.value.llm) && r.value.Valid() && r.value.llm.deployments == 1
              && r.value.isLlmHealthy && r.value.maxTimeout == DefaultMaxTimeout
              && !r.value.continuousTask && r.value.scheduledHealthChecks == 0
              && r.value.promptingStartingTime == None
              && r.value.llm.model == config.model && r.value.llm.modeltyp == config.modeltyp
              && r.value.llm.promptingConfig == config.prompting
              && r.value.llm.deploymentConfig == NormaliseDtype(config.deployment)
              && r.value.llm.usesChatTemplate == Some(config.usesChatTemplate)
              && r.value.llm.initMemoryUsage == rss
              && r.value.llm.State() == DownloadStep(FreshState(), Truthy(config.usesChatTemplate), init)
  {
    var parsed := ParseConfig(decoded);
    if parsed.Err? {
      return Err(parsed.error);
    }
    var config := parsed.value;
    var wrapper := new LLMWrapper(config.modeltyp, config.model, config.prompting, NormaliseDtype(config.deployment),
                                  Some(config.usesChatTemplate), rss, init);
    return Ok(wrapper);
  }
}
