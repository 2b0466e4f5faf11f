/**
 * The table of language models the backend can run
 * (backend/core/llm/model_registry.py), and the error vocabulary shared by
 * the router and the Ollama client.
 */
module ModelRegistry {
  import opened Common

  /**
   * One entry of `MODELS`. The router reads `provider` and `model_name`
   * by indexing and `max_tokens` and `temperature` with a default, so the
   * latter two are optional here.
   */
  datatype ModelConfig = ModelConfig(
    provider: string,
    modelName: string,
    maxTokens: Option<int>,
    temperature: Option<real>,
    description: string)

  /** What running a model can raise: a ValueError with its message, or an exception of the HTTP client by class name. */
  datatype LlmError = ValueError(message: string) | ClientError(name: string)

  /** The ids of `MODELS`, in insertion order. */
  const ModelIds: seq<string> := ["local-llama", "local-mistral"]

  const Models: map<string, ModelConfig> := map[
    "local-llama" := ModelConfig("ollama", "llama3:8b", Some(2048), Some(0.7), "Llama 3 8B (Local via Ollama)"),
    "local-mistral" := ModelConfig("ollama", "mistral:7b", Some(2048), Some(0.7), "Mistral 7B (Local via Ollama)")
  ]

  const DefaultModel: string := "local-llama"

  /** Python's `repr` of a list of strings that hold no quote or backslash. */
  function ListRepr(items: seq<string>): string {
    "[" + Quoted(items) + "]"
  }

  function Quoted(items: seq<string>): string
    decreases |items|
  {
    if |items| == 0 then ""
    else if |items| == 1 then "'" + items[0] + "'"
    else "'" + items[0] + "', " + Quoted(items[1..])
  }

  /** `get_model_config`: the entry for a known id, otherwise a ValueError naming the available ids. */
  function GetModelConfig(id: string): (r: Result<ModelConfig, LlmError>)
    ensures r.Ok? <==> id in ModelIds
    ensures r.Ok? ==> r.value == Models[id] && r.value.provider == "ollama" && r.value.maxTokens == Some(2048)
    ensures r.Err? ==> r.error == ValueError("Unknown model: " + id + ". Available: " + ListRepr(ModelIds))
  {
    if id !in Models then Err(ValueError("Unknown model: " + id + ". Available: " + ListRepr(ModelIds)))
    else Ok(Models[id])
  }

  /** `list_models`: the whole table, keyed by exactly the ids of `ModelIds`. */
  function ListModels(): (m: map<string, ModelConfig>)
    ensures forall id :: id in m <==> id in ModelIds
    ensures forall id :: id in m ==> GetModelConfig(id) == Ok(m[id])
  {
    RegistryShape();
    Models
  }

  /**
   * The table holds exactly local-llama and local-mistral, the default is
   * one of them, and every entry runs on Ollama with 2048 tokens at
   * temperature 0.7.
   */
  lemma RegistryShape()
    ensures Models.Keys == {"local-llama", "local-mistral"}
    ensures forall id :: id in Models <==> id in ModelIds
    ensures |ModelIds| == 2 && ModelIds[0] != ModelIds[1]
    ensures DefaultModel in Models
    ensures forall id :: id in Models ==>
      Models[id].provider == "ollama" && Models[id].maxTokens == Some(2048) && Models[id].temperature == Some(0.7)
  {
  }

  /** Two ids print as Python prints a two-element list of strings. */
  lemma AvailableRepr(a: string, b: string)
    ensures ListRepr([a, b]) == "[" + "'" + a + "', " + "'" + b + "'" + "]"
  {
    assert [a, b][1..] == [b];
    assert Quoted([a, b]) == "'" + a + "', " + ("'" + b + "'");
  }
}
