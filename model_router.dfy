/** `ModelRouter`: a registry of named language models and of model classes
    by provider, with a lazily built default model. */
module ModelRouting {
  import opened PyValues
  import opened Text

  /** A subclass of `BaseModel`, known by its `__name__`. */
  datatype ModelClass = ModelClass(className: string)

  const OpenAIModel: ModelClass := ModelClass("OpenAIModel")
  const GeminiModel: ModelClass := ModelClass("GeminiModel")

  /** A model instance: its class and the keyword arguments it was built with. */
  class BaseModel {
    const modelClass: ModelClass
    const args: Dict

    constructor (modelClass: ModelClass, args: Dict)
      ensures this.modelClass == modelClass && this.args == args
    {
      this.modelClass := modelClass;
      this.args := args;
    }
  }

  /** The parts of the model classes whose source is not part of this model. */
  datatype Backend = Backend(
    /** `model_class(**kwargs)` raises */
    rejects: (ModelClass, Dict) -> bool,
    /** `model.model_name` */
    modelName: BaseModel -> Value,
    /** `model.get_model_details()` */
    details: BaseModel -> Dict)

  const DefaultModelConfig: Dict :=
    map["provider" := VStr("openai"), "model_name" := VStr("gpt-4o"), "temperature" := VReal(0.0)]

  /** The keyword arguments of the last-resort `OpenAIModel(model_name="gpt-4o")`. */
  const FallbackArgs: Dict := map["model_name" := VStr("gpt-4o")]

  /** A dict argument that is neither None nor empty. */
  predicate Truthy(d: Option<Dict>) {
    d.Some? && d.value != map[]
  }

  /** `config.get("provider", "openai").lower()`; a provider that is not a
      string has no `lower`. */
  function ProviderName(config: Dict): Result<string> {
    match Get(config, "provider", VStr("openai"))
    case VStr(s) => Ok(Lower(s))
    case _ => Err(AttributeError)
  }

  /** The class and keyword arguments `_create_model_from_config` ends up
      constructing with: the provider's class, or the class registered for
      "openai" when the provider is unknown, with every key but "provider";
      if that construction raises, `OpenAIModel(model_name="gpt-4o")`;
      if that raises too, ValueError. */
  function Blueprint(backend: Backend, classes: map<string, ModelClass>, config: Dict): Result<(ModelClass, Dict)>
    requires "openai" in classes
  {
    match ProviderName(config)
    case Err(e) => Err(e)
    case Ok(provider) =>
      var cls := if provider in classes then classes[provider] else classes["openai"];
      var kwargs := config - {"provider"};
      if !backend.rejects(cls, kwargs) then Ok((cls, kwargs))
      else if !backend.rejects(OpenAIModel, FallbackArgs) then Ok((OpenAIModel, FallbackArgs))
      else Err(ValueError)
  }

  /** `r` is what the blueprint `b` describes. */
  predicate Realizes(r: Result<BaseModel>, b: Result<(ModelClass, Dict)>) {
    match b
    case Ok(p) => r.Ok? && r.value.modelClass == p.0 && r.value.args == p.1
    case Err(e) => r == Err(e)
  }

  predicate Distinct(names: seq<string>) {
    forall i, j :: 0 <= i < j < |names| ==> names[i] != names[j]
  }

  /** The entry `list_available_models` makes for a registered model. */
  function ModelInfo(backend: Backend, name: string, model: BaseModel): Dict {
    map["name" := VStr(name),
        "type" := VStr(model.modelClass.className),
        "model_name" := backend.modelName(model),
        "details" := VDict(backend.details(model))]
  }

  /** The entry `list_available_models` makes for a provider class. */
  function ProviderInfo(provider: string, cls: ModelClass): Dict {
    map["name" := VStr(provider),
        "type" := VStr(cls.className),
        "details" := VDict(map["provider" := VStr(provider)])]
  }

  /** `info["details"].get("provider")` */
  function ListedProvider(info: Dict): Value {
    match Get(info, "details", VDict(map[]))
    case VDict(details) => Get(details, "provider", VNone)
    case _ => VNone
  }

  function ListedProviders(infos: seq<Dict>): (r: seq<Value>)
    ensures |r| == |infos|
    ensures forall k :: 0 <= k < |infos| ==> r[k] == ListedProvider(infos[k])
  {
    seq(|infos|, k requires 0 <= k < |infos| => ListedProvider(infos[k]))
  }

  /** One entry per registered model, in registration order. */
  function RegisteredInfos(backend: Backend, names: seq<string>, models: map<string, BaseModel>): seq<Dict>
    requires forall k :: 0 <= k < |names| ==> names[k] in models
  {
    if names == [] then []
    else
      var last := names[|names| - 1];
      RegisteredInfos(backend, names[..|names| - 1], models) + [ModelInfo(backend, last, models[last])]
  }

  /** The second loop: an entry for each provider whose name is not yet
      listed as some entry's provider. */
  function AddProviders(infos: seq<Dict>, providers: seq<string>, classes: map<string, ModelClass>): seq<Dict>
    requires forall k :: 0 <= k < |providers| ==> providers[k] in classes
  {
    if providers == [] then infos
    else
      var prev := AddProviders(infos, providers[..|providers| - 1], classes);
      var p := providers[|providers| - 1];
      if VStr(p) in ListedProviders(prev) then prev else prev + [ProviderInfo(p, classes[p])]
  }

  /** The registered models come first, one each, in registration order. */
  lemma {:induction false} RegisteredInfosInOrder(backend: Backend, names: seq<string>, models: map<string, BaseModel>)
    requires forall k :: 0 <= k < |names| ==> names[k] in models
    ensures |RegisteredInfos(backend, names, models)| == |names|
    ensures forall k :: 0 <= k < |names| ==>
      RegisteredInfos(backend, names, models)[k] == ModelInfo(backend, names[k], models[names[k]])
  {
    if names != [] {
      var init := names[..|names| - 1];
      RegisteredInfosInOrder(backend, init, models);
      assert forall k :: 0 <= k < |init| ==> init[k] == names[k];
    }
  }

  /** The provider step only appends: what was listed before stays, in place. */
  lemma {:induction false} AddProvidersExtends(infos: seq<Dict>, providers: seq<string>, classes: map<string, ModelClass>)
    requires forall k :: 0 <= k < |providers| ==> providers[k] in classes
    ensures infos <= AddProviders(infos, providers, classes)
  {
    if providers != [] {
      AddProvidersExtends(infos, providers[..|providers| - 1], classes);
    }
  }

  /** Every provider ends up listed as some entry's provider, and each entry
      the provider step appends is for a provider not listed before it: no
      provider is listed twice by this step. */
  lemma {:induction false} ProvidersListedOnce(infos: seq<Dict>, providers: seq<string>, classes: map<string, ModelClass>)
    requires forall k :: 0 <= k < |providers| ==> providers[k] in classes
    ensures forall k :: 0 <= k < |providers| ==> VStr(providers[k]) in ListedProviders(AddProviders(infos, providers, classes))
    ensures forall i :: |infos| <= i < |AddProviders(infos, providers, classes)| ==>
      ListedProvider(AddProviders(infos, providers, classes)[i])
        !in ListedProviders(AddProviders(infos, providers, classes)[..i])
  {
    if providers != [] {
      var init := providers[..|providers| - 1];
      var prev := AddProviders(infos, init, classes);
      var p := providers[|providers| - 1];
      ProvidersListedOnce(infos, init, classes);
      AddProvidersExtends(infos, init, classes);
      var result := AddProviders(infos, providers, classes);
      if VStr(p) !in ListedProviders(prev) {
        assert result == prev + [ProviderInfo(p, classes[p])];
        assert result[..|prev|] == prev;
        assert ListedProvider(result[|prev|]) == VStr(p);
        forall k | 0 <= k < |init|
          ensures VStr(init[k]) in ListedProviders(result)
        {
          var i :| 0 <= i < |prev| && ListedProviders(prev)[i] == VStr(init[k]);
          assert ListedProviders(result)[i] == VStr(init[k]);
        }
        assert ListedProviders(result)[|prev|] == VStr(p);
      }
      forall k | 0 <= k < |providers|
        ensures VStr(providers[k]) in ListedProviders(result)
      {
        if k < |init| {
          assert providers[k] == init[k];
        }
      }
    }
  }

  /** Provider names match case-insensitively. */
  lemma ProviderCaseInsensitive(backend: Backend, classes: map<string, ModelClass>, config: Dict, s: string)
    requires "openai" in classes
    ensures Blueprint(backend, classes, config["provider" := VStr(s)])
         == Blueprint(backend, classes, config["provider" := VStr(Lower(s))])
  {
    assert Lower(Lower(s)) == Lower(s);
    assert config["provider" := VStr(s)] - {"provider"} == config["provider" := VStr(Lower(s))] - {"provider"};
  }

  /** An unknown provider is treated as "openai". */
  lemma UnknownProviderIsOpenAI(backend: Backend, classes: map<string, ModelClass>, config: Dict, s: string)
    requires "openai" in classes
    requires Lower(s) !in classes
    ensures Blueprint(backend, classes, config["provider" := VStr(s)])
         == Blueprint(backend, classes, config["provider" := VStr("openai")])
  {
    assert Lower("openai") == "openai";
    assert config["provider" := VStr(s)] - {"provider"} == config["provider" := VStr("openai")] - {"provider"};
  }

  /** When the provider's class accepts the arguments, it gets every key of
      the configuration except "provider", unchanged. */
  lemma ArgumentsForwarded(backend: Backend, classes: map<string, ModelClass>, config: Dict)
    requires "openai" in classes
    requires ProviderName(config).Ok?
    requires !backend.rejects(
      if ProviderName(config).value in classes then classes[ProviderName(config).value] else classes["openai"],
      config - {"provider"})
    ensures Blueprint(backend, classes, config).Ok?
    ensures Blueprint(backend, classes, config).value.1.Keys == config.Keys - {"provider"}
    ensures forall key :: key in Blueprint(backend, classes, config).value.1 ==>
      Blueprint(backend, classes, config).value.1[key] == config[key]
  {
  }

  /** The fallback is `OpenAIModel(model_name="gpt-4o")`, and ValueError is
      raised only when that fails as well. */
  lemma FallbackChain(backend: Backend, classes: map<string, ModelClass>, config: Dict)
    requires "openai" in classes
    requires ProviderName(config).Ok?
    ensures Blueprint(backend, classes, config).Err? ==>
      Blueprint(backend, classes, config).error == ValueError && backend.rejects(OpenAIModel, FallbackArgs)
    ensures var cls := if ProviderName(config).value in classes then classes[ProviderName(config).value] else classes["openai"];
      backend.rejects(cls, config - {"provider"}) && !backend.rejects(OpenAIModel, FallbackArgs) ==>
        Blueprint(backend, classes, config) == Ok((OpenAIModel, FallbackArgs))
    ensures backend.rejects(OpenAIModel, FallbackArgs) && Blueprint(backend, classes, config).Ok? ==>
      !backend.rejects(Blueprint(backend, classes, config).value.0, Blueprint(backend, classes, config).value.1)
  {
  }

  class ModelRouter {
    /** `self.models`, with its keys in insertion order. */
    var modelNames: seq<string>
    var models: map<string, BaseModel>
    /** `self.model_classes`, with its keys in insertion order. */
    var providerNames: seq<string>
    var modelClasses: map<string, ModelClass>
    var defaultModelConfig: Dict
    var defaultModel: BaseModel?

    ghost predicate Valid()
      reads this
    {
      && Distinct(modelNames)
      && (forall name :: name in models <==> name in modelNames)
      && Distinct(providerNames)
      && (forall p :: p in modelClasses <==> p in providerNames)
      && "openai" in modelClasses
    }

    constructor (config: Option<Dict>)
      ensures Valid()
      ensures modelNames == [] && models == map[]
      ensures providerNames == ["openai", "gemini"]
      ensures modelClasses == map["openai" := OpenAIModel, "gemini" := GeminiModel]
      ensures defaultModelConfig == if Truthy(config) then config.value else DefaultModelConfig
      ensures defaultModel == null
    {
      modelNames := [];
      models := map[];
      providerNames := ["openai", "gemini"];
      modelClasses := map["openai" := OpenAIModel, "gemini" := GeminiModel];
      defaultModelConfig := if Truthy(config) then config.value else DefaultModelConfig;
      defaultModel := null;
    }

    /** `register_model(name, model)`: insert or overwrite one entry; an
        overwritten name keeps its place. */
    method RegisterModel(name: string, model: BaseModel)
      requires Valid()
      modifies this`models, this`modelNames
      ensures Valid()
      ensures models == old(models)[name := model]
      ensures modelNames == if name in old(models) then old(modelNames) else old(modelNames) + [name]
    {
      if name !in models {
        modelNames := modelNames + [name];
      }
      models := models[name := model];
    }

    /** `register_model_class(provider, model_class)` */
    method RegisterModelClass(provider: string, modelClass: ModelClass)
      requires Valid()
      modifies this`modelClasses, this`providerNames
      ensures Valid()
      ensures modelClasses == old(modelClasses)[provider := modelClass]
      ensures providerNames == if provider in old(modelClasses) then old(providerNames) else old(providerNames) + [provider]
    {
      if provider !in modelClasses {
        providerNames := providerNames + [provider];
      }
      modelClasses := modelClasses[provider := modelClass];
    }

    /** `_create_model_from_config(config)`; the configuration is a value and
        is not changed. */
    method CreateModelFromConfig(backend: Backend, config: Dict) returns (r: Result<BaseModel>)
      requires Valid()
      ensures Realizes(r, Blueprint(backend, modelClasses, config))
      ensures r.Ok? ==> fresh(r.value)
    {
      var provider := ProviderName(config);
      if provider.Err? {
        return Err(provider.error);
      }
      var name := provider.value;
      if name !in modelClasses {
        name := "openai";
      }
      var cls := modelClasses[name];
      var kwargs := config - {"provider"};
      if !backend.rejects(cls, kwargs) {
        var m := new BaseModel(cls, kwargs);
        return Ok(m);
      }
      if !backend.rejects(OpenAIModel, FallbackArgs) {
        var m := new BaseModel(OpenAIModel, FallbackArgs);
        return Ok(m);
      }
      return Err(ValueError);
    }

    /** What serving the default model does: the memoised instance when there
        is one, otherwise a model built from the default configuration, which
        is remembered when it was built. */
    twostate predicate ServesDefault(backend: Backend, new r: Result<BaseModel>)
      reads this
    {
      if old(defaultModel) != null then
        r == Ok(old(defaultModel)) && defaultModel == old(defaultModel)
      else
        && "openai" in modelClasses
        && Realizes(r, Blueprint(backend, modelClasses, defaultModelConfig))
        && (r.Ok? ==> fresh(r.value) && defaultModel == r.value)
        && (r.Err? ==> defaultModel == null)
    }

    /** `get_default_model()`: builds at most once; afterwards always the
        same instance. */
    method GetDefaultModel(backend: Backend) returns (r: Result<BaseModel>)
      requires Valid()
      modifies this`defaultModel
      ensures Valid()
      ensures ServesDefault(backend, r)
    {
      if defaultModel == null {
        r := CreateModelFromConfig(backend, defaultModelConfig);
        if r.Ok? {
          defaultModel := r.value;
        }
      } else {
        r := Ok(defaultModel);
      }
    }

    /** `get_model(name_or_config)`: a registered name gives its model, a
        dict builds a new model, anything else gives the default model. */
    method GetModel(backend: Backend, nameOrConfig: Value) returns (r: Result<BaseModel>)
      requires Valid()
      modifies this`defaultModel
      ensures Valid()
      ensures nameOrConfig.VStr? && nameOrConfig.s in models ==>
        r == Ok(models[nameOrConfig.s]) && defaultModel == old(defaultModel)
      ensures nameOrConfig.VDict? ==>
        && Realizes(r, Blueprint(backend, modelClasses, nameOrConfig.fields))
        && (r.Ok? ==> fresh(r.value))
        && defaultModel == old(defaultModel)
      ensures !(nameOrConfig.VStr? && nameOrConfig.s in models) && !nameOrConfig.VDict? ==>
        ServesDefault(backend, r)
    {
      match nameOrConfig
      case VStr(name) =>
        if name in models {
          r := Ok(models[name]);
        } else {
          r := GetDefaultModel(backend);
        }
      case VDict(config) =>
        r := CreateModelFromConfig(backend, config);
      case _ =>
        r := GetDefaultModel(backend);
    }

    /** `select_model_for_task(task, requirements)`: non-empty requirements
        build a new model, otherwise the default model. */
    method SelectModelForTask(backend: Backend, task: string, requirements: Option<Dict>) returns (r: Result<BaseModel>)
      requires Valid()
      modifies this`defaultModel
      ensures Valid()
      ensures Truthy(requirements) ==>
        && Realizes(r, Blueprint(backend, modelClasses, requirements.value))
        && (r.Ok? ==> fresh(r.value))
        && defaultModel == old(defaultModel)
      ensures !Truthy(requirements) ==> ServesDefault(backend, r)
    {
      if Truthy(requirements) {
        r := CreateModelFromConfig(backend, requirements.value);
      } else {
        r := GetDefaultModel(backend);
      }
    }

    /** `list_available_models()` */
    method ListAvailableModels(backend: Backend) returns (infos: seq<Dict>)
      requires Valid()
      ensures infos == AddProviders(RegisteredInfos(backend, modelNames, models), providerNames, modelClasses)
    {
      infos := [];
      var k := 0;
      while k < |modelNames|
        invariant 0 <= k <= |modelNames|
        invariant infos == RegisteredInfos(backend, modelNames[..k], models)
      {
        infos := infos + [ModelInfo(backend, modelNames[k], models[modelNames[k]])];
        assert modelNames[..k + 1][..k] == modelNames[..k];
        k := k + 1;
      }
      assert modelNames[..k] == modelNames;
      ghost var registered := infos;
      k := 0;
      while k < |providerNames|
        invariant 0 <= k <= |providerNames|
        invariant infos == AddProviders(registered, providerNames[..k], modelClasses)
      {
        var provider := providerNames[k];
        if VStr(provider) !in ListedProviders(infos) {
          infos := infos + [ProviderInfo(provider, modelClasses[provider])];
        }
        assert providerNames[..k + 1][..k] == providerNames[..k];
        k := k + 1;
      }
      assert providerNames[..k] == providerNames;
    }
  }
}
