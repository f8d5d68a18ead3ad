/**
 * What both reply providers share: the outcome of `generate_reply`, the prompt
 * format and the final "non-blank, stripped" normalisation of the model's text.
 */
module ChatLlm {
  import opened Wrappers
  import opened Text

  const EmptyModelResponse := "empty_model_response"

  /** The exception `generate_reply` lets escape. */
  datatype ProviderError =
    | RuntimeError(message: string)  // raised on purpose, with a reason code
    | AttributeError                 // `.get` called on a value that is not a dict
    | ClientError                    // anything the remote model's SDK raises

  /** `generate_reply` either returns the reply text or raises. */
  type Reply = Result<string, ProviderError>

  const UserMarker := "\n\nUser: "
  const AssistantMarker := "\nAssistant:"

  /** The single prompt both providers send: system prompt, then the user's turn. */
  function Prompt(systemPrompt: string, userText: string): (p: string)
    ensures |p| == |systemPrompt| + |UserMarker| + |userText| + |AssistantMarker|
    ensures p[..|systemPrompt|] == systemPrompt
    ensures p[|p| - |AssistantMarker|..] == AssistantMarker
  {
    systemPrompt + UserMarker + userText + AssistantMarker
  }

  /** The user's text is recoverable from the prompt, so distinct texts give distinct prompts. */
  lemma PromptRecoversUserText(systemPrompt: string, userText: string)
    ensures var p := Prompt(systemPrompt, userText);
      var start := |systemPrompt| + |UserMarker|;
      && |p| == start + |userText| + |AssistantMarker|
      && p[..start] == systemPrompt + UserMarker
      && p[start..start + |userText|] == userText
      && p[start + |userText|..] == AssistantMarker
  {
    var p := Prompt(systemPrompt, userText);
    var start := |systemPrompt| + |UserMarker|;
    assert p == (systemPrompt + UserMarker) + userText + AssistantMarker;
  }

  /**
   * `if not text or not text.strip(): raise RuntimeError("empty_model_response")`
   * then `return text.strip()`.
   */
  function NormaliseReply(text: string): (r: Reply)
    ensures r.Success? <==> !AllSpace(text)
    ensures r.Failure? ==> r.error == RuntimeError(EmptyModelResponse)
    ensures r.Success? ==> r.value == Strip(text)
    ensures r.Success? ==> Trimmed(r.value)
  {
    var t := Strip(text);
    if text == [] || t == [] then Failure(RuntimeError(EmptyModelResponse)) else Success(t)
  }
}
