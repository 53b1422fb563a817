/** The settings record the conversation engine reads, and the kinds of LLM server it talks to. */
module Configuration {
  import opened Text

  /** The four kinds of server: Ollama's native API, and three OpenAI-compatible ones. */
  datatype ApiProvider = Ollama | LmStudio | OpenAiCompatible | Custom

  /** Enum.ToString(): the variant's declared name. */
  function ProviderName(p: ApiProvider): (r: string)
    ensures r != []
  {
    match p
    case Ollama => "Ollama"
    case LmStudio => "LmStudio"
    case OpenAiCompatible => "OpenAiCompatible"
    case Custom => "Custom"
  }

  /**
   * The sampling temperature, a double in the source. It is carried as the decimal text it is
   * written and shown as (for example "0.7"); the model does no arithmetic on it.
   */
  datatype Temperature = Temperature(literal: string)

  /** LlmConfig: one value per setting; the numeric ones are C# ints, which nothing range-checks. */
  datatype LlmConfig = LlmConfig(
    apiUrl: string,
    modelName: string,
    temperature: Temperature,
    maxTokens: Int32,
    timeoutSeconds: Int32,
    maxHistoryLength: Int32,
    systemPrompt: string,
    provider: ApiProvider,
    bearerToken: string)

  const DefaultSystemPrompt: string :=
    "You are a helpful SQL Server and T-SQL assistant inside SSMS. "
    + "You provide expert advice on SQL Server, T-SQL queries, database design, "
    + "performance optimization, and troubleshooting."

  /** The settings a freshly constructed LlmConfig holds: a local Ollama server, llama3. */
  const DefaultConfig: LlmConfig := LlmConfig(
    "http://localhost:11434",
    "llama3",
    Temperature("0.7"),
    2048,
    120,
    50,
    DefaultSystemPrompt,
    Ollama,
    "")
}
