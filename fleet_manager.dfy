/**
  The Ollama fleet manager's lookup tables: which server hosts which model
  families, which model is recommended for a use case and a size preference,
  and which server URL a client is pointed at.
  The server URLs are opaque constants (their environment overrides and the
  LangChain client are outside the model).
*/
module FleetManager {

  /** Server key to base URL. */
  const Servers: map<string, string> := map[
    "server_small" := "http://localhost:11434",
    "server_medium" := "http://localhost:11435",
    "server_large" := "http://localhost:11436"
  ]

  /** Model family to the models of that family. */
  const Models: map<string, seq<string>> := map[
    "qwen" := ["qwen2.5:0.5b", "qwen2.5:1.5b", "qwen2.5:3b", "qwen2.5:7b",
               "qwen2.5:14b", "qwen2.5:32b", "qwen2.5-coder:7b"],
    "llama" := ["llama3.2:1b", "llama3.2:3b", "llama3.1:8b", "llama3.1:70b"],
    "granite" := ["granite3-moe:1b", "granite3.1:2b", "granite3.1:8b",
                  "granite-code:20b", "granite-code:34b"],
    "deepseek" := ["deepseek-r1:1.5b", "deepseek-r1:7b", "deepseek-r1:14b", "deepseek-r1:32b"],
    "mistral" := ["mistral:7b", "mistral-nemo:12b", "mistral-small:22b"],
    "gemma" := ["gemma2:2b", "gemma2:9b", "gemma2:27b"],
    "phi" := ["phi3:3b", "phi3.5:3.8b", "phi4:14b"]
  ]

  /** (use case, size preference) to (model name, server key). */
  const Recommendations: map<(string, string), (string, string)> := map[
    ("general", "small") := ("qwen2.5:3b", "server_small"),
    ("general", "medium") := ("qwen2.5:7b", "server_medium"),
    ("general", "large") := ("qwen2.5:32b", "server_large"),
    ("code", "small") := ("qwen2.5-coder:7b", "server_small"),
    ("code", "medium") := ("granite-code:20b", "server_medium"),
    ("code", "large") := ("granite-code:34b", "server_large"),
    ("reasoning", "small") := ("deepseek-r1:7b", "server_small"),
    ("reasoning", "medium") := ("deepseek-r1:14b", "server_medium"),
    ("reasoning", "large") := ("deepseek-r1:32b", "server_large"),
    ("fast", "small") := ("qwen2.5:0.5b", "server_small"),
    ("fast", "medium") := ("llama3.2:3b", "server_small"),
    ("fast", "large") := ("qwen2.5:7b", "server_medium")
  ]

  /** The answer for a (use case, size) pair the table does not know. */
  const Fallback: (string, string) := ("qwen2.5:7b", "server_medium")

  /** The model is offered by some family of the catalogue. */
  predicate Listed(model: string)
  {
    exists family :: family in Models && model in Models[family]
  }

  /** The settings a chat client is built from. */
  datatype ClientConfig = ClientConfig(model: string, temperature: real, format: string, baseUrl: string)

  /**
    `get_model`: an unknown server key falls back to the small server, so the
    client always points at a configured URL.
  */
  function GetModel(modelName: string, server: string := "server_small",
                    temperature: real := 0.0, format: string := ""): (c: ClientConfig)
    ensures server in Servers ==> c.baseUrl == Servers[server]
    ensures server !in Servers ==> c.baseUrl == Servers["server_small"]
    ensures c.baseUrl in Servers.Values
    ensures c.model == modelName && c.temperature == temperature && c.format == format
  {
    var baseUrl := if server in Servers then Servers[server] else Servers["server_small"];
    ClientConfig(modelName, temperature, format, baseUrl)
  }

  /**
    `get_recommended_model`: a lookup with a fixed fallback, defined for every
    pair of strings.
  */
  function GetRecommendedModel(useCase: string := "general",
                               sizePreference: string := "medium"): (r: (string, string))
    ensures (useCase, sizePreference) in Recommendations ==> r == Recommendations[(useCase, sizePreference)]
    ensures (useCase, sizePreference) !in Recommendations ==> r == Fallback
    ensures r.1 in Servers
  {
    if (useCase, sizePreference) in Recommendations then Recommendations[(useCase, sizePreference)]
    else Fallback
  }

  /** Called with its default arguments it recommends qwen2.5:7b on the medium server. */
  lemma DefaultRecommendation()
    ensures GetRecommendedModel() == ("qwen2.5:7b", "server_medium")
  {
  }

  /** Whatever it is asked, the recommended model is one the catalogue lists. */
  lemma RecommendedModelListed(useCase: string, sizePreference: string)
    ensures Listed(GetRecommendedModel(useCase, sizePreference).0)
  {
    var model := GetRecommendedModel(useCase, sizePreference).0;
    if model in Models["qwen"] {
      assert "qwen" in Models;
    } else if model in Models["granite"] {
      assert "granite" in Models;
    } else if model in Models["deepseek"] {
      assert "deepseek" in Models;
    } else {
      assert model in Models["llama"];
      assert "llama" in Models;
    }
  }

  /** A recommendation handed to `get_model` reaches the URL of the recommended server. */
  lemma RecommendationReachesItsServer(useCase: string, sizePreference: string)
    ensures var (model, server) := GetRecommendedModel(useCase, sizePreference);
            GetModel(model, server).baseUrl == Servers[server]
  {
  }
}
