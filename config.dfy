/** The process settings, read once from the environment and passed in as a value. */
module Config {
  import opened Wrappers

  /** The provider used when `LLM_PROVIDER` is empty. */
  const DefaultLlmProvider := "gemini"

  /** The settings the core reads. */
  datatype Settings = Settings(
    accessKey: string,
    tokenSecret: string,
    tokenTtlSeconds: int,
    llmProvider: string,
    systemPrompt: string,
    geminiApiKey: Option<string>,
    geminiModel: string,
    openrouterApiKey: Option<string>,
    openrouterModel: string)
}
