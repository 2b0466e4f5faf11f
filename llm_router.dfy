/**
 * Model selection (backend/core/llm/router.py): resolve the model id
 * against the registry, pick the provider's client, and delegate to its
 * `generate` with the entry's parameters.
 */
module LlmRouter {
  import opened Common
  import opened ModelRegistry
  import Ollama

  /** The keys of `PROVIDERS`; "ollama" maps to `OllamaClient`. */
  const Providers: set<string> := {"ollama"}

  /** The keyword arguments `run_inference` passes to `generate`. */
  datatype GenerateArgs = GenerateArgs(
    prompt: string,
    history: Option<seq<Ollama.HistoryEntry>>,
    maxTokens: int,
    temperature: real,
    model: string)

  /** `model_id or DEFAULT_MODEL`, as the source's `is None` test gives it. */
  function ModelIdOf(modelId: Option<string>): string {
    if modelId.None? then DefaultModel else modelId.value
  }

  /**
   * Everything `run_inference` decides before calling the client: the
   * registry's error for an unknown id, a ValueError for an unknown
   * provider, or the arguments for `generate`, where a missing
   * max_tokens is 2048 and a missing temperature 0.7.
   */
  function Route(prompt: string, history: Option<seq<Ollama.HistoryEntry>>, modelId: Option<string>)
    : (r: Result<GenerateArgs, LlmError>)
    ensures var config := GetModelConfig(ModelIdOf(modelId));
      && (config.Err? ==> r == Err(config.error))
      && (r.Ok? <==> config.Ok? && config.value.provider in Providers)
      && (r.Ok? ==> r.value.prompt == prompt && r.value.history == history && r.value.model == config.value.modelName)
  {
    match GetModelConfig(ModelIdOf(modelId))
    case Err(e) => Err(e)
    case Ok(c) =>
      if c.provider !in Providers then Err(ValueError("Unknown provider: " + c.provider))
      else Ok(GenerateArgs(prompt, history, c.maxTokens.GetOr(2048), c.temperature.GetOr(0.7), c.modelName))
  }

  /** No id means the default model, local-llama, which runs llama3:8b. */
  lemma DefaultModelUsed(prompt: string, history: Option<seq<Ollama.HistoryEntry>>)
    ensures Route(prompt, history, None) == Route(prompt, history, Some(DefaultModel))
    ensures Route(prompt, history, None) == Ok(GenerateArgs(prompt, history, 2048, 0.7, "llama3:8b"))
  {
    RegistryShape();
  }

  /** An unknown id fails with the registry's ValueError, so no client is built. */
  lemma UnknownModelRejected(prompt: string, history: Option<seq<Ollama.HistoryEntry>>, id: string)
    requires id !in ModelIds
    ensures GetModelConfig(id).Err? && Route(prompt, history, Some(id)) == Err(GetModelConfig(id).error)
  {
  }

  /**
   * Every known id routes to Ollama with its own model name, 2048 tokens
   * and temperature 0.7, and the prompt and history passed on unchanged;
   * the unknown-provider error cannot arise from this registry.
   */
  lemma KnownModelRouted(prompt: string, history: Option<seq<Ollama.HistoryEntry>>, id: string)
    requires id in ModelIds
    ensures Route(prompt, history, Some(id)) == Ok(GenerateArgs(prompt, history, 2048, 0.7, Models[id].modelName))
  {
    RegistryShape();
  }

  /**
   * `run_inference`: route, build the provider's client from the
   * environment, and return what its `generate` returns. `sent` is the
   * request the client made, if any.
   */
  method RunInference(prompt: string, history: Option<seq<Ollama.HistoryEntry>>, modelId: Option<string>,
                      env: map<string, string>, ex: Ollama.Exchange)
    returns (reply: Result<string, LlmError>, sent: Option<Ollama.Request>)
    ensures var route := Route(prompt, history, modelId);
            && (route.Err? ==> reply == Err(route.error) && sent.None?)
            && (route.Ok? ==> reply == Ollama.ReplyOf(ex))
            && (route.Ok? ==>
                  sent == Some(Ollama.RequestFor(Ollama.BaseUrl(env), prompt, history, route.value.maxTokens,
                                                 route.value.temperature, route.value.model)))
  {
    var id := if modelId.None? then DefaultModel else modelId.value;
    var config := GetModelConfig(id);
    if config.Err? {
      return Err(config.error), None;
    }
    var provider := config.value.provider;
    if provider !in Providers {
      return Err(ValueError("Unknown provider: " + provider)), None;
    }
    var client := new Ollama.OllamaClient(env);
    var request;
    reply, request := client.Generate(prompt, history, config.value.maxTokens.GetOr(2048),
                                      config.value.temperature.GetOr(0.7), config.value.modelName, ex);
    sent := Some(request);
  }
}
