/**
 * The chat routes: provider selection, `POST /messages` (validate, persist the
 * user message, ask the provider, persist the reply) and `GET /messages`.
 */
module ChatRoutes {
  import opened Wrappers
  import opened Text
  import opened Config
  import opened Security
  import opened HttpErrors
  import opened ChatLlm
  import opened Storage
  import opened Deps
  import Gemini
  import OpenRouter

  const MaxMessageLength: nat := 500

  const EmptyMessage := HttpException(400, "empty_message")
  const MessageTooLong := HttpException(400, "message_too_long")
  const LlmRequestFailed := HttpException(502, "llm_request_failed")
  const GeminiKeyNotConfigured := HttpException(500, "gemini_api_key_not_configured")
  const OpenRouterKeyNotConfigured := HttpException(500, "openrouter_api_key_not_configured")
  const UnsupportedProvider := HttpException(500, "unsupported_llm_provider")

  /** A configured `ChatLLM`. */
  datatype Provider =
    | GeminiProvider(gemini: Gemini.Config)
    | OpenRouterProvider(openRouter: OpenRouter.Config)

  /** The two remote services, as functions: the Gemini SDK call and the OpenRouter HTTP exchange. */
  datatype Upstream = Upstream(
    geminiSdk: (string, string, string) -> Gemini.SdkOutcome,
    openRouterPost: OpenRouter.Request -> OpenRouter.PostOutcome)

  /** `llm.generate_reply(user_text)`, dispatched to the configured provider. */
  function GenerateReply(p: Provider, up: Upstream, userText: string): (r: Reply)
    ensures r.Success? ==> Trimmed(r.value)
  {
    match p
    case GeminiProvider(cfg) => Gemini.GenerateReply(cfg, userText, up.geminiSdk)
    case OpenRouterProvider(cfg) => OpenRouter.GenerateReply(cfg, userText, up.openRouterPost)
  }

  /**
   * `(settings.llm_provider or "gemini").lower()`: `"gemini"` for an empty
   * setting, and otherwise the setting itself in lower case.
   */
  function ProviderName(settings: Settings): (name: string)
    ensures settings.llmProvider == [] ==> name == DefaultLlmProvider
    ensures settings.llmProvider != [] ==> EqualIgnoringAsciiCase(settings.llmProvider, name)
    ensures forall i :: 0 <= i < |name| ==> !IsAsciiUpper(name[i])
  {
    var configured := if settings.llmProvider == [] then DefaultLlmProvider else settings.llmProvider;
    assert Lower(DefaultLlmProvider) == DefaultLlmProvider;
    Lower(configured)
  }

  /** `not key` is false: the key is set and not empty. */
  predicate KeyConfigured(key: Option<string>)
  {
    key.Some? && key.value != []
  }

  /** `get_llm`: pick the provider by name, refusing a missing key or an unknown name with 500. */
  function GetLlm(settings: Settings): (r: Result<Provider, ApiError>)
    ensures ProviderName(settings) == "gemini" ==>
      r == if KeyConfigured(settings.geminiApiKey)
           then Success(GeminiProvider(Gemini.Config(settings.geminiApiKey.value, settings.geminiModel, settings.systemPrompt)))
           else Failure(GeminiKeyNotConfigured)
    ensures ProviderName(settings) == "openrouter" ==>
      r == if KeyConfigured(settings.openrouterApiKey)
           then Success(OpenRouterProvider(OpenRouter.Config(settings.openrouterApiKey.value, settings.openrouterModel, settings.systemPrompt)))
           else Failure(OpenRouterKeyNotConfigured)
    ensures ProviderName(settings) != "gemini" && ProviderName(settings) != "openrouter" ==>
      r == Failure(UnsupportedProvider)
    ensures r.Failure? ==> r.error.Status() == 500
  {
    var provider := ProviderName(settings);
    if provider == "gemini" then
      if !KeyConfigured(settings.geminiApiKey) then Failure(GeminiKeyNotConfigured)
      else Success(GeminiProvider(Gemini.Config(settings.geminiApiKey.value, settings.geminiModel, settings.systemPrompt)))
    else if provider == "openrouter" then
      if !KeyConfigured(settings.openrouterApiKey) then Failure(OpenRouterKeyNotConfigured)
      else Success(OpenRouterProvider(OpenRouter.Config(settings.openrouterApiKey.value, settings.openrouterModel, settings.systemPrompt)))
    else
      Failure(UnsupportedProvider)
  }

  /** The provider name is case-insensitive, and an empty name means `"gemini"`. */
  lemma GetLlmNameNormalised(settings: Settings)
    ensures GetLlm(settings.(llmProvider := Lower(settings.llmProvider))) == GetLlm(settings)
    ensures settings.llmProvider == [] ==> GetLlm(settings) == GetLlm(settings.(llmProvider := "gemini"))
  {
    LowerIdempotent(settings.llmProvider);
    assert Lower("gemini") == "gemini";
  }

  /** Two settings whose provider names differ only in ASCII case select the same provider. */
  lemma GetLlmIgnoresCase(settings: Settings, name: string)
    requires EqualIgnoringAsciiCase(settings.llmProvider, name)
    ensures GetLlm(settings.(llmProvider := name)) == GetLlm(settings)
  {
    LowerCaseInsensitive(settings.llmProvider, name);
  }

  /** What a client is shown of a stored message: every field, copied. */
  datatype MessageOut = MessageOut(id: int, role: string, text: string, createdAt: string)

  datatype SendMessageOut = SendMessageOut(user: MessageOut, assistant: MessageOut)

  /** The client's view of a stored message; nothing is lost, the record can be rebuilt from it. */
  function ToMessageOut(m: StoredMessage): (out: MessageOut)
    ensures StoredMessage(out.id, out.role, out.text, out.createdAt) == m
  {
    MessageOut(m.id, m.role, m.text, m.createdAt)
  }

  /** The input check of `send_message`: strip, refuse empty, refuse more than 500 code points. */
  function ValidateText(rawText: string): (r: Result<string, ApiError>)
    ensures AllSpace(rawText) ==> r == Failure(EmptyMessage)
    ensures !AllSpace(rawText) && |Strip(rawText)| > 500 ==> r == Failure(MessageTooLong)
    ensures r.Success? <==> !AllSpace(rawText) && |Strip(rawText)| <= 500
    ensures r.Success? ==>
      && r.value == Strip(rawText)
      && |r.value| <= 500
      && Trimmed(r.value)
  {
    var text := Strip(rawText);
    if text == [] then Failure(EmptyMessage)
    else if |text| > MaxMessageLength then Failure(MessageTooLong)
    else Success(text)
  }

  /** What one exchange leaves behind: the answer, the table's rows and its sequence counter. */
  datatype Exchange = Exchange(result: Result<SendMessageOut, ApiError>, rows: seq<StoredMessage>, lastId: int)

  /**
   * The outcome of the storing half of `send_message`, from the table before it
   * and the provider's reply to `text`. An insert that fails (no table, no rowid
   * left) is an uncaught storage error, so 500, and changes nothing; a
   * provider failure after the user insert is 502.
   */
  function ExchangeOutcome(hasTable: bool, rows: seq<StoredMessage>, lastId: int, text: string, reply: Reply,
                           userCreatedAt: string, assistantCreatedAt: string): (e: Exchange)
    ensures |rows| <= |e.rows| <= |rows| + 2 && e.rows[..|rows|] == rows
    ensures e.lastId == lastId + (|e.rows| - |rows|)
    ensures e.result.Success? <==> hasTable && lastId + 1 < MaxRowId && reply.Success?
    ensures e.result.Success? ==> |e.rows| == |rows| + 2
    ensures e.result == Failure(LlmRequestFailed) <==> hasTable && lastId < MaxRowId && reply.Failure?
  {
    if !hasTable || lastId >= MaxRowId then Exchange(Failure(InternalServerError), rows, lastId)
    else
      var userMsg := StoredMessage(lastId + 1, "user", text, userCreatedAt);
      match reply
      case Failure(_) => Exchange(Failure(LlmRequestFailed), rows + [userMsg], lastId + 1)
      case Success(t) =>
        if lastId + 1 >= MaxRowId then Exchange(Failure(InternalServerError), rows + [userMsg], lastId + 1)
        else
          var assistantMsg := StoredMessage(lastId + 2, "assistant", t, assistantCreatedAt);
          Exchange(Success(SendMessageOut(ToMessageOut(userMsg), ToMessageOut(assistantMsg))),
                   rows + [userMsg, assistantMsg], lastId + 2)
  }

  /**
   * The storing half of `send_message` for an already validated `text`: the
   * user message is inserted, the provider is asked, and its reply is inserted
   * right after. A provider failure is 502 with only the user message added; a
   * storage failure is 500.
   */
  method RecordExchange(store: MessageStore, generate: string -> Reply, text: string,
                        userCreatedAt: string, assistantCreatedAt: string)
    returns (r: Result<SendMessageOut, ApiError>)
    requires store.Valid()
    modifies store
    ensures store.Valid()
    ensures store.hasTable == old(store.hasTable) && store.hasIndex == old(store.hasIndex)
    ensures !old(store.hasTable) ==>
      r == Failure(InternalServerError) && store.rows == old(store.rows) && store.lastId == old(store.lastId)
    ensures old(store.hasTable) && old(store.lastId) < MaxRowId ==>
      var userMsg := StoredMessage(old(store.lastId) + 1, "user", text, userCreatedAt);
      && (generate(text).Failure? ==>
            r == Failure(LlmRequestFailed) && store.rows == old(store.rows) + [userMsg]
            && store.lastId == old(store.lastId) + 1)
      && (generate(text).Success? && old(store.lastId) + 1 < MaxRowId ==> r.Success?)
      && (generate(text).Success? && old(store.lastId) + 1 == MaxRowId ==>
            r == Failure(InternalServerError) && store.rows == old(store.rows) + [userMsg]
            && store.lastId == old(store.lastId) + 1)
    ensures old(store.hasTable) && old(store.lastId) == MaxRowId ==>
      r == Failure(InternalServerError) && store.rows == old(store.rows) && store.lastId == old(store.lastId)
    ensures r.Success? ==>
      var userMsg := StoredMessage(old(store.lastId) + 1, "user", text, userCreatedAt);
      && generate(text).Success?
      && var assistantMsg := StoredMessage(old(store.lastId) + 2, "assistant", generate(text).value, assistantCreatedAt);
      && store.rows == old(store.rows) + [userMsg, assistantMsg]
      && store.lastId == old(store.lastId) + 2
      && r.value == SendMessageOut(ToMessageOut(userMsg), ToMessageOut(assistantMsg))
      && r.value.user.id < r.value.assistant.id
    ensures r.Failure? ==>
      store.rows == old(store.rows) ||
      store.rows == old(store.rows) + [StoredMessage(old(store.lastId) + 1, "user", text, userCreatedAt)]
    ensures Exchange(r, store.rows, store.lastId) ==
      ExchangeOutcome(old(store.hasTable), old(store.rows), old(store.lastId), text, generate(text),
                      userCreatedAt, assistantCreatedAt)
  {
    ghost var rows0, id0 := store.rows, store.lastId;
    var userMsg := store.AddMessage("user", text, userCreatedAt);
    if userMsg.Failure? {
      return Failure(InternalServerError);
    }
    ghost var u := StoredMessage(id0 + 1, "user", text, userCreatedAt);
    assert userMsg.value == u && store.rows == rows0 + [u] && store.lastId == id0 + 1;
    var reply := generate(text);
    if reply.Failure? {
      return Failure(LlmRequestFailed);
    }
    var assistantMsg := store.AddMessage("assistant", reply.value, assistantCreatedAt);
    if assistantMsg.Failure? {
      return Failure(InternalServerError);
    }
    ghost var a := StoredMessage(id0 + 2, "assistant", reply.value, assistantCreatedAt);
    assert assistantMsg.value == a && store.rows == rows0 + [u] + [a];
    assert rows0 + [u] + [a] == rows0 + [u, a];
    return Success(SendMessageOut(ToMessageOut(userMsg.value), ToMessageOut(assistantMsg.value)));
  }

  /**
   * The body of `send_message`, given the provider's `generate_reply`. Invalid
   * input fails before anything is stored. Otherwise the stripped text is stored
   * as a `user` message and handed to the provider; if the provider raises, the
   * request fails with 502 and only the user message has been added; if it
   * replies, the reply is stored as an `assistant` message right after it. A
   * storage failure surfaces as 500.
   */
  method SendMessage(store: MessageStore, generate: string -> Reply, rawText: string,
                     userCreatedAt: string, assistantCreatedAt: string)
    returns (r: Result<SendMessageOut, ApiError>)
    requires store.Valid()
    modifies store
    ensures store.Valid()
    ensures store.hasTable == old(store.hasTable) && store.hasIndex == old(store.hasIndex)
    ensures ValidateText(rawText).Failure? ==> r == Failure(ValidateText(rawText).error) && unchanged(store)
    ensures ValidateText(rawText).Success? && !old(store.hasTable) ==>
      r == Failure(InternalServerError) && store.rows == old(store.rows) && store.lastId == old(store.lastId)
    ensures ValidateText(rawText).Success? && old(store.hasTable) && old(store.lastId) < MaxRowId ==>
      var userMsg := StoredMessage(old(store.lastId) + 1, "user", Strip(rawText), userCreatedAt);
      && (generate(Strip(rawText)).Failure? ==>
            r == Failure(LlmRequestFailed) && store.rows == old(store.rows) + [userMsg]
            && store.lastId == old(store.lastId) + 1)
      && (generate(Strip(rawText)).Success? && old(store.lastId) + 1 < MaxRowId ==> r.Success?)
      && (generate(Strip(rawText)).Success? && old(store.lastId) + 1 == MaxRowId ==>
            r == Failure(InternalServerError) && store.rows == old(store.rows) + [userMsg]
            && store.lastId == old(store.lastId) + 1)
    ensures ValidateText(rawText).Success? && old(store.hasTable) && old(store.lastId) == MaxRowId ==>
      r == Failure(InternalServerError) && store.rows == old(store.rows) && store.lastId == old(store.lastId)
    ensures r.Success? ==>
      var text := Strip(rawText);
      var userMsg := StoredMessage(old(store.lastId) + 1, "user", text, userCreatedAt);
      && ValidateText(rawText) == Success(text)
      && generate(text).Success?
      && var assistantMsg := StoredMessage(old(store.lastId) + 2, "assistant", generate(text).value, assistantCreatedAt);
      && store.rows == old(store.rows) + [userMsg, assistantMsg]
      && store.lastId == old(store.lastId) + 2
      && r.value == SendMessageOut(ToMessageOut(userMsg), ToMessageOut(assistantMsg))
      && r.value.user.id < r.value.assistant.id
    ensures r.Failure? ==>
      store.rows == old(store.rows) ||
      store.rows == old(store.rows) + [StoredMessage(old(store.lastId) + 1, "user", Strip(rawText), userCreatedAt)]
    ensures ValidateText(rawText).Success? ==>
      Exchange(r, store.rows, store.lastId) ==
      ExchangeOutcome(old(store.hasTable), old(store.rows), old(store.lastId), Strip(rawText),
                      generate(Strip(rawText)), userCreatedAt, assistantCreatedAt)
  {
    var valid := ValidateText(rawText);
    if valid.Failure? {
      return Failure(valid.error);
    }
    r := RecordExchange(store, generate, valid.value, userCreatedAt, assistantCreatedAt);
  }

  /** The body of `list_messages`: the default listing of the store, field for field, in storage order. */
  method ListMessages(store: MessageStore) returns (r: Result<seq<MessageOut>, ApiError>)
    requires store.Valid()
    ensures !store.hasTable ==> r == Failure(InternalServerError)
    ensures store.hasTable ==> r.Success?
    ensures r.Success? ==>
      && |r.value| == (if |store.rows| < DefaultListLimit then |store.rows| else DefaultListLimit)
      && forall i :: 0 <= i < |r.value| ==> r.value[i] == ToMessageOut(store.rows[i])
    ensures r.Success? ==> forall i :: 0 <= i < |r.value| ==> AllowedRole(r.value[i].role)
    ensures r.Success? ==> forall i, j :: 0 <= i < j < |r.value| ==> r.value[i].id < r.value[j].id
  {
    var listed := store.ListMessages(DefaultListLimit);
    if listed.Failure? {
      return Failure(InternalServerError);
    }
    var ms := listed.value;
    return Success(seq(|ms|, i requires 0 <= i < |ms| => ToMessageOut(ms[i])));
  }

  /**
   * `POST /messages` as routed: authentication first, then provider selection,
   * then `send_message`. Either of the first two failing leaves the store alone.
   */
  method PostMessages(authorization: Option<string>, settings: Settings, serializer: Serializer, up: Upstream,
                      store: MessageStore, rawText: string, userCreatedAt: string, assistantCreatedAt: string)
    returns (r: Result<SendMessageOut, ApiError>)
    requires store.Valid()
    modifies store
    ensures store.Valid()
    ensures RequireAuth(authorization, settings, serializer).Failure? ==>
      r == Failure(RequireAuth(authorization, settings, serializer).error) && unchanged(store)
    ensures RequireAuth(authorization, settings, serializer).Success? && GetLlm(settings).Failure? ==>
      r == Failure(GetLlm(settings).error) && unchanged(store)
    ensures r.Success? ==>
      && RequireAuth(authorization, settings, serializer).Success?
      && GetLlm(settings).Success?
      && var reply := GenerateReply(GetLlm(settings).value, up, Strip(rawText));
      && reply.Success?
      && r.value.assistant.text == reply.value
      && r.value.user.text == Strip(rawText)
      && store.rows == old(store.rows) + [
           StoredMessage(r.value.user.id, "user", Strip(rawText), userCreatedAt),
           StoredMessage(r.value.assistant.id, "assistant", reply.value, assistantCreatedAt)]
    ensures RequireAuth(authorization, settings, serializer).Success? && GetLlm(settings).Success? ==>
      && (ValidateText(rawText).Failure? ==> r == Failure(ValidateText(rawText).error) && unchanged(store))
      && (ValidateText(rawText).Success? ==>
            Exchange(r, store.rows, store.lastId) ==
            ExchangeOutcome(old(store.hasTable), old(store.rows), old(store.lastId), Strip(rawText),
                            GenerateReply(GetLlm(settings).value, up, Strip(rawText)),
                            userCreatedAt, assistantCreatedAt))
  {
    var auth := RequireAuth(authorization, settings, serializer);
    if auth.Failure? {
      return Failure(auth.error);
    }
    var llm := GetLlm(settings);
    if llm.Failure? {
      return Failure(llm.error);
    }
    var provider := llm.value;
    r := SendMessage(store, u => GenerateReply(provider, up, u), rawText, userCreatedAt, assistantCreatedAt);
  }

  /** `GET /messages` as routed: authentication, then the listing. */
  method GetMessages(authorization: Option<string>, settings: Settings, serializer: Serializer, store: MessageStore)
    returns (r: Result<seq<MessageOut>, ApiError>)
    requires store.Valid()
    ensures RequireAuth(authorization, settings, serializer).Failure? ==>
      r == Failure(RequireAuth(authorization, settings, serializer).error)
    ensures RequireAuth(authorization, settings, serializer).Success? && store.hasTable ==>
      && r.Success?
      && |r.value| == (if |store.rows| < DefaultListLimit then |store.rows| else DefaultListLimit)
      && forall i :: 0 <= i < |r.value| ==> r.value[i] == ToMessageOut(store.rows[i])
    ensures RequireAuth(authorization, settings, serializer).Success? && !store.hasTable ==>
      r == Failure(InternalServerError)
  {
    var auth := RequireAuth(authorization, settings, serializer);
    if auth.Failure? {
      return Failure(auth.error);
    }
    r := ListMessages(store);
  }
}
