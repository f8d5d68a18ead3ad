/**
 * The Gemini reply provider. The SDK call `client.models.generate_content`, on
 * a client built with the configured API key, is the abstract `generate`
 * parameter, given that key, the model and the contents; what it returns is
 * reduced to the value of the response's `text` attribute (`JNull` when it is
 * missing or `None`).
 */
module Gemini {
  import opened Wrappers
  import opened Text
  import opened Json
  import opened ChatLlm

  datatype Config = Config(apiKey: string, model: string, systemPrompt: string)

  /** The SDK call either raises or returns a response with some `text` value. */
  datatype SdkOutcome = SdkRaised | SdkResponse(text: Json)

  /** `GeminiChatService(cfg).generate_reply(userText)` against the SDK call `generate(apiKey, model, contents)`. */
  function GenerateReply(cfg: Config, userText: string, generate: (string, string, string) -> SdkOutcome): (r: Reply)
    ensures var out := generate(cfg.apiKey, cfg.model, Prompt(cfg.systemPrompt, userText));
      && (out.SdkRaised? ==> r == Failure(ClientError))
      && (out.SdkResponse? && !out.text.JString? ==> r == Failure(RuntimeError(EmptyModelResponse)))
      && (out.SdkResponse? && out.text.JString? && AllSpace(out.text.s) ==>
            r == Failure(RuntimeError(EmptyModelResponse)))
      && (out.SdkResponse? && out.text.JString? && !AllSpace(out.text.s) ==> r == Success(Strip(out.text.s)))
    ensures r.Success? ==> Trimmed(r.value)
  {
    var contents := Prompt(cfg.systemPrompt, userText);
    match generate(cfg.apiKey, cfg.model, contents)
    case SdkRaised => Failure(ClientError)
    case SdkResponse(text) =>
      if text.JString? then NormaliseReply(text.s) else Failure(RuntimeError(EmptyModelResponse))
  }

  /**
   * The SDK is asked, with the configured key, for the configured model with the
   * shared prompt, and only its answer to that call decides the reply.
   */
  lemma GenerateReplyUsesPrompt(cfg: Config, userText: string, g1: (string, string, string) -> SdkOutcome,
                                g2: (string, string, string) -> SdkOutcome)
    requires g1(cfg.apiKey, cfg.model, cfg.systemPrompt + "\n\nUser: " + userText + "\nAssistant:")
          == g2(cfg.apiKey, cfg.model, cfg.systemPrompt + "\n\nUser: " + userText + "\nAssistant:")
    ensures GenerateReply(cfg, userText, g1) == GenerateReply(cfg, userText, g2)
  {
  }
}
