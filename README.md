# Chat gateway core, modelled in Dafny

This project models the backend of a small authenticated chat gateway. The
gateway checks a shared access key and issues signed, expiring tokens. It keeps
an append-only log of chat messages in SQLite. It forwards each user message to
one of two language-model providers, Gemini or OpenRouter, and stores the reply.

Modules follow the backend's files:

| module | file | form |
|---|---|---|
| `Text` | (Python `str` operations) | functions: `strip`, `isspace`, `startswith`, `removeprefix`, `lower`, `str(int)` |
| `Json` | (values from `json.loads`) | datatype; a dict is an association list whose last duplicate key wins |
| `ChatLlm` | `backend/app/services/llm/base.py`, with the prompt of `gemini.py:16` and `openrouter_client.py:23` and the reply check of `gemini.py:19-21` and `openrouter_client.py:83-85` | the reply outcome, the prompt format, reply normalisation |
| `OpenRouter` | `backend/app/services/llm/openrouter_client.py` | functions, plus the method `ContentToStr` with its loop |
| `Gemini` | `backend/app/services/llm/gemini.py` | functions |
| `Storage` | `backend/app/services/storage/sqlite.py` | class `MessageStore` over a `seq` of rows and a sequence counter |
| `Config` | `backend/app/core/config.py` | the settings record |
| `Security` | `backend/app/core/security.py` | functions and lemmas |
| `HttpErrors` | (FastAPI `HTTPException`) | datatype |
| `Deps` | `backend/app/api/deps.py` | functions and lemmas |
| `AuthRoutes` | `backend/app/api/routes_auth.py` | functions and lemmas |
| `ChatRoutes` | `backend/app/api/routes_chat.py` | `get_llm` as a function; `send_message` and the routes as methods on the store |

Foreign calls are parameters:
- The OpenRouter HTTP exchange (`requests.post` followed by `resp.json()`) is a function from `Request` to `PostOutcome`.
- The Gemini SDK call is a function from (API key, model, contents) to `SdkOutcome`: the key is the one the client was built with.
- The itsdangerous serializer is a `Serializer`: a pair of functions `dumps` and `loads`.
- Wall-clock timestamps for `created_at` are string arguments.

Nothing is assumed about these functions. A property that needs the signer to
accept a freshly issued token takes that as a `requires`.

Choices made explicit:
- **Character unit.** A string is a `seq<char>` of Unicode scalar values, so `|s|` is Python's `len`.
  `Text.IsSpace` lists exactly the code points Python's `str.isspace()` accepts, and `Text.Strip` removes those from both ends.
- **Bounds.** The 500-character message limit and the 8 to 255 key length are exact.
- **Ids.** Ids come from an AUTOINCREMENT counter (`lastId`, SQLite's `sqlite_sequence`).
  The first id is 1, each insert takes the next one, and a failed insert leaves the counter alone.
  Past rowid 2^63 - 1 an insert fails with `DatabaseFull`.
- **Listing.** `list_messages(limit)` is `ORDER BY id ASC LIMIT limit`: the first `limit` rows in id order.
  SQLite reads a negative limit as "no limit", and `Storage.Window` says so.
- **OpenRouter crashes.** `_extract_content` on a decoded body only ever runs its dict fallback: `getattr(x, "choices", None)` is `None` for every JSON value.
  That fallback raises `AttributeError` when the first choice is not a dict, or when its `message` is truthy but not a dict.
  The model keeps this as the `Crash` outcome. `send_message` turns it, like every provider exception, into 502 `llm_request_failed`.
- **Token payloads.** `verify` calls `data.get("sub")`. If the signed payload is not a dict, this raises `AttributeError`, not `ValueError`.
  `require_auth` does not catch that, so the answer is 500, modelled as `InternalServerError`.
- **Storage failures.** A storage error inside `send_message` is not caught, so it also becomes 500.
  This happens for a missing table (no `init` yet) or exhausted rowids.
- **Dependency order.** FastAPI resolves route dependencies in parameter order. So `POST /messages` checks the token first, then selects the provider, then runs the handler (`ChatRoutes.PostMessages`).

Behaviours of the code worth stating, since a reader might expect otherwise:
- The code treats only status codes of 400 and above as HTTP errors, not every non-2xx status. A 1xx or 3xx response goes on to JSON decoding.
- The status check comes before any JSON decoding.
- A content part counts only when it is a dict whose `text` is a string.
- Not every provider failure is wrapped in a provider error. Gemini SDK exceptions and the `AttributeError` above escape `generate_reply` unchanged. Only `send_message` catches them.
- A token payload that is not a dict is a 500, not `invalid_token`.
- Nothing orders `created_at` by id, so it is kept as an opaque string.

## Model

| member | source | states |
|---|---|---|
| Text.Strip | backend/app/api/routes_chat.py:61 | `strip()` removes only whitespace from the ends; the result is empty exactly when the input is all whitespace, and neither starts nor ends with whitespace otherwise |
| Text.StripIsSlice | backend/app/api/deps.py:22 | the stripped string is a slice `s[i..j]` of the input with only whitespace before `i` and after `j` |
| Text.StripTrimmed | backend/app/services/llm/gemini.py:19-21 | text that neither starts nor ends with whitespace is left unchanged by stripping |
| Text.StripIdempotent | backend/app/services/llm/gemini.py:19-21 | stripping an already stripped string changes nothing |
| Text.RemovePrefix | backend/app/api/deps.py:22 | `removeprefix` drops the prefix exactly when it is present and returns the string unchanged otherwise |
| Text.Lower | backend/app/api/routes_chat.py:23 | the lowercased string has no ASCII capital and agrees with the input letter for letter up to ASCII case |
| Text.LowerCharCaseInsensitive | backend/app/api/routes_chat.py:23 | two characters are the same up to ASCII case exactly when they lowercase to the same character |
| Text.LowerCaseInsensitive | backend/app/api/routes_chat.py:23 | two strings are equal up to ASCII case exactly when they lowercase to the same string |
| Text.LowerIdempotent | backend/app/api/routes_chat.py:23 | lowercasing twice is lowercasing once |
| Text.DecimalString | backend/app/services/llm/openrouter_client.py:67 | the status code in `openrouter_http_<status>` is a non-empty string of digits with no leading zero |
| Text.DecimalRoundTrip | backend/app/services/llm/openrouter_client.py:67 | reading the rendered status code back gives the status code |
| Json.Lookup | backend/app/services/llm/openrouter_client.py:118 | a key is found exactly when some member has it, and then its value is the last such member's |
| Json.Get | backend/app/services/llm/openrouter_client.py:120-121 | `dict.get` of an absent key is `None` |
| ChatLlm.Prompt | backend/app/services/llm/gemini.py:16 | the prompt `f"{system_prompt}\n\nUser: {user_text}\nAssistant:"` of both providers: it starts with the system prompt, ends with `"\nAssistant:"`, and is as long as its four pieces together |
| ChatLlm.PromptRecoversUserText | backend/app/services/llm/openrouter_client.py:23 | the prompt is system prompt, `"\n\nUser: "`, user text, `"\nAssistant:"`, and the user text can be cut back out of it |
| ChatLlm.NormaliseReply | backend/app/services/llm/openrouter_client.py:83-85 | a blank text fails with `empty_model_response`; otherwise the reply is the stripped text, non-empty, with no whitespace at either end |
| OpenRouter.UserMessage | backend/app/services/llm/openrouter_client.py:28 | the single chat message reads back role `user` and the prompt as its content |
| OpenRouter.Payload | backend/app/services/llm/openrouter_client.py:25-30 | the request body is a dict that reads back the configured model under `model` and a one-element list holding the user message under `messages` |
| OpenRouter.BuildRequest | backend/app/services/llm/openrouter_client.py:42-50 | the POST that `generate_reply` sends: URL, the two headers, the payload and the 30 s timeout; what it carries is stated by `RequestCarriesOneUserMessage` |
| OpenRouter.RequestCarriesOneUserMessage | backend/app/services/llm/openrouter_client.py:23-50 | the request goes to the chat-completions URL with a 30 s timeout and a Bearer key, names the model, and carries exactly one message, role `user`, content `system_prompt + "\n\nUser: " + user_text + "\nAssistant:"` |
| OpenRouter.ContentText | backend/app/services/llm/openrouter_client.py:163-184 | what `_content_to_str` returns, as a function: the string itself, the joined string `text`s of a list with at least one, and `None` otherwise; its cases are stated by `ContentTextCases` |
| OpenRouter.ContentToStr | backend/app/services/llm/openrouter_client.py:163-184 | the loop over content parts returns exactly what `ContentText` specifies |
| OpenRouter.TextPartsAppend | backend/app/services/llm/openrouter_client.py:172-180 | collecting part texts distributes over concatenation, so texts come out in the parts' order |
| OpenRouter.TextPartsSingle | backend/app/services/llm/openrouter_client.py:174-180 | one part contributes its `text` exactly when it is a dict whose `text` is a string, and nothing otherwise |
| OpenRouter.TextPartsEmpty | backend/app/services/llm/openrouter_client.py:179-182 | no text is collected exactly when no part has a string `text` |
| OpenRouter.ContentTextCases | backend/app/services/llm/openrouter_client.py:168-184 | a string content is returned unchanged, the empty string included; a list gives the concatenation of its string texts when at least one exists and `None` otherwise; anything else gives `None` |
| OpenRouter.ExtractContent | backend/app/services/llm/openrouter_client.py:88-126 | what the dict fallback of `_extract_content` yields for a decoded body: found text, no content, or the `AttributeError` of `.get` on a non-dict; its cases are stated by `ExtractContentCases` |
| OpenRouter.ExtractContentCases | backend/app/services/llm/openrouter_client.py:117-126 | no content unless the body is a dict with a non-empty `choices` list; a first choice that is not a dict, or a truthy non-dict `message`, crashes; a falsy `message` gives no content; otherwise the result is the content of `choices[0].message.content` |
| OpenRouter.ExtractContentFirstChoiceOnly | backend/app/services/llm/openrouter_client.py:119-124 | two bodies whose first choices agree extract the same result; later choices are ignored |
| OpenRouter.HandleResponse | backend/app/services/llm/openrouter_client.py:51-85 | a transport error fails with `openrouter_request_failed`; status 400 and up fails with `openrouter_http_<status>`; an undecodable body fails with `openrouter_invalid_json`; a success is the stripped found content, non-empty, without edge whitespace |
| OpenRouter.HandleResponseContent | backend/app/services/llm/openrouter_client.py:82-85 | after a decodable body: no content or blank content gives `empty_model_response`, a crash stays a crash, other content gives its stripped form |
| OpenRouter.StatusCheckedFirst | backend/app/services/llm/openrouter_client.py:60-67 | with an error status the outcome is a failure that does not depend on the body |
| OpenRouter.GenerateReply | backend/app/services/llm/openrouter_client.py:21-85 | the reply only comes from a response to the built request; a transport error on it fails with `openrouter_request_failed`; a reply is non-empty with no edge whitespace |
| OpenRouter.ExtractOneChoice | backend/app/services/llm/openrouter_client.py:117-124 | a dict body with one choice whose `message` holds `content` extracts exactly what `_content_to_str` makes of that content, and no content when it makes nothing |
| OpenRouter.PartTextOfText | backend/app/services/llm/openrouter_client.py:174-179 | a part `{"text": t}` contributes `t` |
| OpenRouter.TextPartsSkipMiddle | backend/app/services/llm/openrouter_client.py:172-180 | of three parts whose middle one has no string `text`, the texts of the outer two are collected, in order |
| OpenRouter.ConcatPair | backend/app/services/llm/openrouter_client.py:181 | joining two texts with `""` concatenates them |
| OpenRouter.ExtractionExampleParts | backend/app/services/llm/openrouter_client.py:171-182 | for any texts x and y, content parts `[{"text": x}, {}, {"text": y}]` extract as `x + y` |
| OpenRouter.ExtractionExamplePlain | backend/app/services/llm/openrouter_client.py:168-169 | content `"plain"` extracts as `"plain"` |
| OpenRouter.ExtractionExampleNoChoices | backend/app/services/llm/openrouter_client.py:117-126 | `choices: []` gives no content and so `empty_model_response` |
| Gemini.GenerateReply | backend/app/services/llm/gemini.py:10-21 | the SDK is called with the configured key, the model and the prompt; an SDK exception escapes; a missing, non-string or blank `text` fails with `empty_model_response`; a reply happens exactly for non-blank string text and is that text stripped |
| Gemini.GenerateReplyUsesPrompt | backend/app/services/llm/gemini.py:10-17 | the reply depends only on what the SDK answers, for the configured key, to the configured model and the prompt `system_prompt + "\n\nUser: " + user_text + "\nAssistant:"` |
| Storage.Window | backend/app/services/storage/sqlite.py:36-42 | the listing is a prefix of the table of length `min(limit, rows)`, or the whole table for a negative limit |
| Storage.WindowIsOldest | backend/app/services/storage/sqlite.py:39 | listed rows are in strictly ascending id order and have lower ids than every row left out |
| Storage.WindowAppend | backend/app/services/storage/sqlite.py:36-66 | while fewer rows than the limit exist, adding a row extends the listing by exactly that row at the end |
| Storage.WindowEmpty | backend/app/services/storage/sqlite.py:42-51 | an empty table lists as the empty sequence |
| Storage.MessageStore.constructor | backend/app/services/storage/sqlite.py:18-19 | a new database has no table, no index, no rows and a zero sequence counter |
| Storage.MessageStore.Init | backend/app/services/storage/sqlite.py:21-34 | afterwards table and index exist and the rows and counter are unchanged; when both already existed nothing changes at all |
| Storage.MessageStore.AddMessage | backend/app/services/storage/sqlite.py:53-66 | succeeds exactly when the table exists, a rowid is left and the role is `user` or `assistant`; the new record has the next id, greater than every earlier id, the given role, text and timestamp, and is appended; a failure leaves the table unchanged |
| Storage.MessageStore.ListMessages | backend/app/services/storage/sqlite.py:36-51 | before `init` it fails; otherwise it returns the first `limit` rows (all for a negative limit) in strictly ascending id order, the lowest ids, with valid roles |
| Storage.InitTwice | backend/app/services/storage/sqlite.py:21-34 | a second `init` keeps every stored message |
| Storage.AppendThenList | backend/app/services/storage/sqlite.py:36-66 | on an empty table, adding a user and an assistant message lists them back in that order with ids 1 and 2 |
| Security.MatchesRepeatSpec | backend/app/core/security.py:10 | the `{lo,hi}` repetition over `[A-Za-z0-9_-]` matches exactly the strings of class characters whose length is between the bounds |
| Security.ValidateAccessKeyFormat | backend/app/core/security.py:13-14 | true exactly for a string of 8 to 255 characters from `[A-Za-z0-9_-]` |
| Security.NoKeyIsMalformed | backend/app/core/security.py:14 | `None` and the empty string are rejected |
| Security.NewTokenService | backend/app/core/security.py:23-24 | the service signs with the given secret and the salt `chatgemini-token` |
| Security.Issue | backend/app/core/security.py:26-27 | the token is the serializer's `dumps` of `{"sub": sub}` under the service's secret and salt; `VerifyIssued` states that it verifies back to `sub` |
| Security.Verify | backend/app/core/security.py:29-37 | a signer rejection gives `invalid_token`; success happens exactly for a dict payload with a non-empty string `sub`, which is returned, so no empty subject is ever returned |
| Security.VerifyInvalidCases | backend/app/core/security.py:30-36 | `invalid_token` happens exactly for a signer rejection or a dict payload whose `sub` is missing, not a string, or empty |
| Security.VerifyIssued | backend/app/core/security.py:26-37 | a token issued for a non-empty subject that the signer accepts within the age verifies to that subject |
| Deps.TokenServiceFor | backend/app/api/deps.py:9-13 | the module-level token service: keyed with `token_secret` and the default salt |
| Deps.BearerToken | backend/app/api/deps.py:20-22 | no token for a missing header or one without the case-sensitive prefix `"Bearer "`; otherwise the token is the rest of the header, stripped |
| Deps.BearerTokenOfPrefixed | backend/app/api/deps.py:20-22 | a header made of `"Bearer "` and a token yields that token, stripped |
| Deps.RequireAuth | backend/app/api/deps.py:16-26 | missing or malformed header gives 401 `missing_token`; otherwise `verify` runs with the configured TTL, its `invalid_token` becomes 401 `invalid_token`, the uncaught `AttributeError` of a non-dict payload becomes 500, and its payload is returned; `missing_token` comes only from the header; a returned subject is never empty |
| Deps.MissingTokenWithoutVerify | backend/app/api/deps.py:20-21 | a missing or non-Bearer header gives `missing_token` whatever the signer would say |
| Deps.LowercaseBearerIsMissing | backend/app/api/deps.py:20 | `"bearer ..."` in lower case is `missing_token` |
| Deps.BarePrefixVerifiesEmptyToken | backend/app/api/deps.py:20-26 | the header `"Bearer "` verifies the empty token, is never `missing_token`, and is `invalid_token` when the signer rejects the empty token |
| AuthRoutes.Login | backend/app/api/routes_auth.py:15-23 | a malformed key gives 400 `invalid_key_format`; a well-formed different key gives 401 `wrong_key`; success happens exactly for the well-formed configured key and returns a token for `"access"` with `expires_in` equal to the TTL |
| AuthRoutes.MalformedKeyNeverWrong | backend/app/api/routes_auth.py:17-21 | a malformed key never gives `wrong_key`, and its outcome does not depend on the configured key |
| AuthRoutes.Validate | backend/app/api/routes_auth.py:26-28 | `{"ok": true}` exactly when `require_auth` passes, with its error otherwise |
| AuthRoutes.LoginThenAuthenticate | backend/app/api/routes_auth.py:22-23 | the token from a successful login, sent as `Bearer <token>`, authenticates as `"access"` (both in `require_auth` and in `/auth/validate`) once the signer accepts it within the TTL and it has no surrounding whitespace |
| ChatRoutes.GenerateReply | backend/app/api/routes_chat.py:69 | a reply from either provider is non-empty with no whitespace at either end |
| ChatRoutes.ProviderName | backend/app/api/routes_chat.py:23 | the provider name is `gemini` for an empty setting and otherwise the setting up to ASCII case, with no capital left |
| ChatRoutes.GetLlm | backend/app/api/routes_chat.py:22-40 | `gemini` and `openrouter` select their provider with its key, model and the system prompt; a missing or empty key gives 500 `<provider>_api_key_not_configured`; any other name gives 500 `unsupported_llm_provider` |
| ChatRoutes.GetLlmNameNormalised | backend/app/api/routes_chat.py:23 | the provider name is case-insensitive and an empty name means `gemini` |
| ChatRoutes.GetLlmIgnoresCase | backend/app/api/routes_chat.py:23-40 | two provider settings that differ only in ASCII case select the same provider or the same error |
| ChatRoutes.ToMessageOut | backend/app/api/routes_chat.py:49 | the client's view of a stored message loses nothing: the stored record can be rebuilt from it |
| ChatRoutes.ValidateText | backend/app/api/routes_chat.py:61-65 | blank text gives 400 `empty_message`; stripped text over 500 characters gives 400 `message_too_long`; exactly 1 to 500 stripped characters pass, as the stripped text |
| ChatRoutes.ExchangeOutcome | backend/app/api/routes_chat.py:67-82 | an exchange only appends to the table, at most two records, and the sequence counter advances by exactly the number appended; it succeeds exactly when the table exists, two rowids are left and the provider replies, and then appends both records; it is 502 exactly when the user insert succeeds and the provider fails |
| ChatRoutes.RecordExchange | backend/app/api/routes_chat.py:67-82 | for validated text, answer, rows and counter are exactly `ExchangeOutcome` of the table before and the provider's reply: a missing table, or no rowid left, gives 500 with nothing stored; a provider failure gives 502 `llm_request_failed` with only the user record appended and the counter one up; a success appends the user record and then the assistant record carrying the reply, the counter two up, and returns both with the assistant id above the user id; when only the user insert finds a rowid, a reply gives 500 with only the user record appended |
| ChatRoutes.SendMessage | backend/app/api/routes_chat.py:54-82 | invalid input gives its 400 and changes nothing; valid input is stored and answered exactly as `ExchangeOutcome` of the stripped text and the provider's reply to it: 500 with nothing stored for a missing table or no rowid left, 502 `llm_request_failed` with only the user record appended and the counter one up, or both records appended with ids one and two above the old counter and returned |
| ChatRoutes.ListMessages | backend/app/api/routes_chat.py:43-51 | the response is the first 500 stored messages in storage order, id, role, text and `created_at` copied, with ascending ids and valid roles |
| ChatRoutes.PostMessages | backend/app/api/routes_chat.py:54-82 | an authentication failure or a provider-selection failure is returned before the store is touched; once both pass, an invalid text gives its 400 with the store unchanged, and a valid one is answered and stored exactly as `ExchangeOutcome` of the stripped text and the selected provider's reply to it |
| ChatRoutes.GetMessages | backend/app/api/routes_chat.py:43-51 | an authentication failure is returned as is; otherwise a missing table gives 500, and an existing one lists the store's first 500 messages copied field for field |

## Left out

- HTTP and network I/O: the actual POST, the `requests` timeout behaviour and `json.dumps` of the payload are not modelled. The request is modelled only as the JSON value it would encode.
- JSON decoding: `resp.json()` is part of the abstract exchange, as a decoded value or a decoding failure. JSON numbers are integers; floats are not modelled, because only their truth value could matter, and a float behaves there like an integer.
- Lone surrogate code points, which `json.loads` can produce, are not representable as Dafny characters.
- The debug log `_append_debug_log` (`backend/app/services/llm/openrouter_client.py:129-160`) is left out: its errors are swallowed, so it never changes an outcome.
- The attribute-access branch of `_extract_content` (`backend/app/services/llm/openrouter_client.py:99-114`) is left out: it never applies to a value `resp.json()` returns.
- The Gemini SDK client: constructing `genai.Client` is not modelled. The response is reduced to its `text` attribute.
- Cryptography and time: the HMAC signature, the timestamp encoding and the expiry check are inside the abstract `Serializer`. Expiry and tampering therefore appear only as `loads` returning `None`.
- itsdangerous `BadPayload`, for a validly signed but undecodable payload, is not modelled. Only a holder of the secret can produce one.
- SQLite internals are not modelled: connections, the database path, `mkdir`, connection and disk failures, and the parsing of `created_at` with `datetime.fromisoformat`. The relative order of the SQLITE_FULL and CHECK failures is the model's choice; both leave the table unchanged.
- Text.Lower: lowercases ASCII letters only, not the whole of Unicode as Python's `lower()` does. The result is only compared with `gemini` and `openrouter`. Outside ASCII, only U+0130 and U+212A lowercase to ASCII letters: to `i` plus a combining dot, and to `k`. Neither can make either name, so the selection outcome is the same.
- `llm_provider` is typed `str` in the settings, so it cannot be `None`. Only the empty string falls back to `gemini`.
- Configuration loading from the environment, and the defaults it applies, are not modelled: settings are any value of `Config.Settings`. Only the `gemini` fallback for an empty provider name is kept, because `get_llm` applies it. The `app_env` and `db_path` settings are not modelled: nothing in the core reads them.
- FastAPI wiring is not modelled: routers, `Depends`, the startup hook and the health endpoint. Pydantic request validation (422 answers) and response-model validation are not modelled either; stored roles always satisfy the role pattern.
- The frontend (`frontend/app.js`) is not modelled: it only repeats checks the backend makes.
- Concurrent requests against the store are not modelled.
