# LiteLLM key manager page, modelled in Dafny

This project models the key-manager page of the LiteLLM plugin for Backstage
(`plugins/litellm/src/components/LitellmPage/LitellmPage.tsx`). The page lets a
signed-in portal user get an API key from a LiteLLM gateway. On mount it checks
its five settings. It resolves the user's email and normalises Azure AD guest
addresses. It then makes sure the user exists on the gateway, creating it if
needed. When the user submits a key name, it requests a key and shows the key
beside four usage samples (Python OpenAI, Python Langchain, JS Langchain, cURL).

Modules, one per part of the page:

- `Wrappers`: `Option` and `Result`.
- `Text`: substring search (JavaScript's `includes`, `indexOf`, and the first piece of `split`), plus the decimal text of a number.
- `Email`: `ParseAzureAdEmail` and `FetchUserEmail`.
- `Config`: the `app.litellm` settings and the mount-time gate.
- `Gateway`: the requests the page sends, the responses it may get, and how the user lookup and creation replies are read.
- `Keys`: how the key-generation reply becomes a key or a message.
- `Samples`: the four sample templates, their rendering and the tab mapping.
- `Page`: the class `LitellmPage`. Its fields are the component's state. Its methods are the bootstrap, the submit handler and the button.

Network calls are not modelled. Each call's outcome is an input value of type
`Response<B>`: either the call threw (network failure or unreadable body, with
the error's message), or a reply with status, status text and the part of the
body the page reads. The page's `sent` field records, in order, the requests
the page issued. "No request is made" and "the user is created only when
absent" are stated on that field.

## Model

| member | source | states |
|---|---|---|
| Config.CheckConfig | plugins/litellm/src/components/LitellmPage/LitellmPage.tsx:33-40 | On acceptance, every setting is truthy and is exactly the configured value. On refusal, the error is "LiteLLM config is not set". |
| Config.CheckConfigAccepts | plugins/litellm/src/components/LitellmPage/LitellmPage.tsx:33-35 | A settings block is accepted if and only if all five settings are truthy. An accepted block is handed back unchanged. |
| Config.CheckConfigRefusesFalsy | plugins/litellm/src/components/LitellmPage/LitellmPage.tsx:33-35 | An absent or falsy setting makes the gate throw. This includes an empty string and a budget of 0. |
| Email.ParseAzureAdEmail | plugins/litellm/src/components/LitellmPage/LitellmPage.tsx:53-59 | The result is a prefix of the input, with no `#EXT#` in it and none starting before its end. If the input contains the marker, the marker starts right after the result. Otherwise the input comes back unchanged. |
| Email.ParseAzureAdEmailUnique | plugins/litellm/src/components/LitellmPage/LitellmPage.tsx:53-59 | Those properties determine the result: any prefix cut at the first marker (or the whole input when there is none) equals it. |
| Email.ParseAzureAdEmailIdempotent | plugins/litellm/src/components/LitellmPage/LitellmPage.tsx:53-59 | Normalising twice equals normalising once. |
| Email.ParseAzureAdEmailExample | plugins/litellm/src/components/LitellmPage/LitellmPage.tsx:53-59 | `jane.doe_external#EXT#@tenant.onmicrosoft.com` normalises to `jane.doe_external`. |
| Email.FetchUserEmail | plugins/litellm/src/components/LitellmPage/LitellmPage.tsx:62-73 | With a truthy profile email, the result is that email normalised. With a missing profile, a missing or empty email, or a failed lookup, the result is `FALLBACK_USER_EMAIL`. The function never fails, and the result never holds the marker. |
| Gateway.CheckUserExists | plugins/litellm/src/components/LitellmPage/LitellmPage.tsx:76-96 | The user exists if and only if the reply is ok and its `users` list is present and non-empty. A thrown call means absent. |
| Gateway.CreateUser | plugins/litellm/src/components/LitellmPage/LitellmPage.tsx:99-126 | Creation succeeded if and only if the reply is ok with a readable body. |
| Gateway.UserLookupRequest | plugins/litellm/src/components/LitellmPage/LitellmPage.tsx:78 | The lookup asks for the user whose id is the given email, first page, 25 users per page. |
| Gateway.NewUserRequest | plugins/litellm/src/components/LitellmPage/LitellmPage.tsx:108-112 | The creation request carries the configured per-user budget, the email as user id, and the configured team. |
| Gateway.KeyRequest | plugins/litellm/src/components/LitellmPage/LitellmPage.tsx:167-172 | The key request carries the alias, the user id, and the configured team and budget. |
| Keys.KeyGenerationOutcome | plugins/litellm/src/components/LitellmPage/LitellmPage.tsx:185-206 | A key is issued if and only if the reply is ok with a non-empty `key`, and then it is that key. A thrown call or a non-ok reply yields the message prefixed `Error generating key: `. An ok reply without a key yields `No key returned from API.`. |
| Keys.FailureReason | plugins/litellm/src/components/LitellmPage/LitellmPage.tsx:185-193 | A non-ok message is `Failed to generate key: `, the status in decimal and a space, followed by the detail chosen for the status. |
| Keys.FailureDetail | plugins/litellm/src/components/LitellmPage/LitellmPage.tsx:187-193 | Status 400 gives `Bad Request - ` followed by the duplicate-key-name advice. Status 500 gives `Internal Server Error`. Any other status gives the reply's status text. |
| Keys.FailureReasonNamesStatus | plugins/litellm/src/components/LitellmPage/LitellmPage.tsx:185-193 | Every non-ok message starts with `Failed to generate key: ` and the status in decimal, and the status can be read back from it. |
| Keys.BadRequestAdvisesRename | plugins/litellm/src/components/LitellmPage/LitellmPage.tsx:187-188 | Status 400 gives a message that contains the duplicate-key-name advice. |
| Keys.ServerErrorMessage | plugins/litellm/src/components/LitellmPage/LitellmPage.tsx:189-190 | Status 500 gives `Failed to generate key: 500 Internal Server Error`, whatever the status text. |
| Keys.OtherStatusMessage | plugins/litellm/src/components/LitellmPage/LitellmPage.tsx:191-192 | Any other status gives the status followed by the reply's status text. |
| Keys.FailuresArePrefixed | plugins/litellm/src/components/LitellmPage/LitellmPage.tsx:202-203 | A thrown call or a non-ok reply never yields a key, and its message starts with `Error generating key: `. |
| Text.DecimalRoundTrip | plugins/litellm/src/components/LitellmPage/LitellmPage.tsx:186-192 | Reading back the decimal text of a status gives the status, so the text names it unambiguously. |
| Samples.KeyOrPlaceholder | plugins/litellm/src/components/LitellmPage/LitellmPage.tsx:214 | The text put into a sample is the generated key when there is one, and `<your-generated-key>` otherwise. It is never empty. |
| Samples.MakeCodeSamples | plugins/litellm/src/components/LitellmPage/LitellmPage.tsx:210-273 | Each of the four samples contains the key or the placeholder, and the base URL. |
| Samples.RenderEmbeds | plugins/litellm/src/components/LitellmPage/LitellmPage.tsx:210-273 | A filled-in template contains both the key and the base URL. |
| Samples.RenderRoundTrip | plugins/litellm/src/components/LitellmPage/LitellmPage.tsx:210-273 | The key can be read back from a filled-in template at its place, given the base URL. So each tab's sample carries exactly the generated key, or the placeholder when there is none. |
| Samples.RenderArguments | plugins/litellm/src/components/LitellmPage/LitellmPage.tsx:210-273 | The fixed text on each side of a hole stays next to the value filled into it. |
| Samples.GetCodeSampleForTab | plugins/litellm/src/components/LitellmPage/LitellmPage.tsx:275-282 | Index 0 selects the Python OpenAI sample, 1 Python Langchain, 2 JS Langchain, and every other index cURL. |
| Samples.SampleForTab | plugins/litellm/src/components/LitellmPage/LitellmPage.tsx:275-282 | Tabs 0, 1 and 2 give the Python OpenAI, Python Langchain and JS Langchain samples, and every other index gives cURL. Each is its template filled with the key or the placeholder and the base URL. |
| Samples.PythonOpenAIArguments | plugins/litellm/src/components/LitellmPage/LitellmPage.tsx:211-222 | The Python OpenAI sample contains `api_key="<key>"` and `base_url="<baseUrl>"`. |
| Samples.CurlTargetsChatCompletions | plugins/litellm/src/components/LitellmPage/LitellmPage.tsx:262-272 | The cURL sample targets `'<baseUrl>/chat/completions'` and carries `Bearer <key>`. |
| Page.LitellmPage.constructor | plugins/litellm/src/components/LitellmPage/LitellmPage.tsx:42-49 | The initial state: empty alias, key, message and user id, tab 0, not generating, initialising, nothing sent. |
| Page.LitellmPage.EditKeyAlias | plugins/litellm/src/components/LitellmPage/LitellmPage.tsx:300-309 | Typing sets the alias and nothing else. |
| Page.LitellmPage.SelectTab | plugins/litellm/src/components/LitellmPage/LitellmPage.tsx:347-358 | Choosing one of the four tabs sets the tab index and nothing else. |
| Page.LitellmPage.InitializeUser | plugins/litellm/src/components/LitellmPage/LitellmPage.tsx:129-153 | The user id is the resolved email. The user lookup is always sent. The creation request is sent only when the lookup did not find the user. A failed creation sets `Failed to create user in LiteLLM`. Initialisation is over on every path. |
| Page.LitellmPage.BeginSubmit | plugins/litellm/src/components/LitellmPage/LitellmPage.tsx:156-183 | The message is cleared first. An empty alias gives `Please provide a key name.`, with no request and no change to the key or the generating flag. Otherwise the page is generating and has sent exactly `{key_alias, user_id, team_id, budget_id}` from state and settings. |
| Page.LitellmPage.FinishSubmit | plugins/litellm/src/components/LitellmPage/LitellmPage.tsx:185-206 | The reply sets either the new key or the message, leaving the other as it was. The page stops generating on every outcome. |
| Page.LitellmPage.HandleSubmitKeyOptions | plugins/litellm/src/components/LitellmPage/LitellmPage.tsx:156-207 | The whole handler. An empty alias is refused with no request. Otherwise exactly one key request is sent, and the reply gives a key with a cleared message, or a message with the key unchanged. The page ends not generating. |
| Page.LitellmPage.ClickGenerate | plugins/litellm/src/components/LitellmPage/LitellmPage.tsx:311-319 | While a key is being generated (button disabled) or while initialising (form not shown), a click changes nothing and sends nothing. Otherwise it runs the start of the submit handler. |
| Page.DoubleClickSendsOnce | plugins/litellm/src/components/LitellmPage/LitellmPage.tsx:311-319 | Two clicks before the reply send at most one key request, and the second click sends none. |
| Page.LitellmPage.CopiedSample | plugins/litellm/src/components/LitellmPage/LitellmPage.tsx:366-370 | What the copy button copies contains the key or the placeholder, and the base URL. |
| Page.Mount | plugins/litellm/src/components/LitellmPage/LitellmPage.tsx:29-49 | The page throws exactly when the gate refuses. Otherwise it starts in its initial state with the accepted settings. |

`LitellmPage.Valid()` is the invariant every handler keeps:

- the settings are truthy;
- the tab index is one of the four tabs;
- no key is being generated while the bootstrap runs;
- every key request sent names its key;
- a key is shown only after a key request was sent.

Some behaviours one might expect of such a page are not in this version of it. The model follows the code:

- The handler refuses only the empty alias. An alias of spaces is sent.
- Status 500 is reported as `Internal Server Error`, with no paid-feature advice.
- The page runs no team or budget verification and no login step.

## Left out

- JSX and Material-UI layout: left out, since they are presentation. Only two guards are kept: the generate button is disabled while generating, and the form is not rendered while initialising (`ClickGenerate`).
- `fetch`, request headers (every call carries the admin key as `x-goog-api-key`), URLs, JSON parsing and `encodeURIComponent`: left out as network I/O. A call's outcome is an input, and `GetUsers` holds the raw email rather than its URL-encoded form.
- React hooks and re-rendering: left out as framework plumbing. `InitializeUser` runs as one step. That is safe because the form, and so every other handler that changes state, is not shown until it ends. The submit handler awaits twice: the `fetch` (line 175) and `response.json()` (line 196). The model splits it at the `fetch` into `BeginSubmit` and `FinishSubmit`. The two awaits are merged into one `Response` value, and a body that cannot be parsed becomes a thrown call. That is safe because the handler changes no state between them. `checkUserExists` (lines 78 and 89) and `createUser` (lines 101 and 119) are merged the same way.
- `console.log` and `console.error`: left out, since they only log.
- The `catch` at lines 144-146 (`Failed to initialize user`): not modelled, because it cannot be reached. `fetchUserEmail`, `checkUserExists` and `createUser` each catch their own errors, and `setUserId` does not throw. So `InitializeUser` sets no such message.
- The host portal's profile lookup: left out. It is a value of type `ProfileLookup` (failed, or an optional profile with an optional email).
- Config.CheckConfig: `maxBudgetPerUser` is an unbounded integer. NaN, which JavaScript also treats as falsy, and fractional budgets are not modelled. Settings of the wrong JSON type are not modelled either. When `app.litellm` is missing, the host's config reader may throw its own error. The model folds that into the same refusal.
- Keys.KeyGenerationOutcome: a `key` field that is truthy but not a string (a number, say) is treated as absent. The source would store it as the key.
- Gateway.CheckUserExists: a `users` field that is present but not an array is not modelled. The body is the list's length, or nothing.
- `.trim()` on the samples: the templates are stored already trimmed. Trimming touches only the fixed text at both ends, never the filled-in values.
- The tab labels and the `tabIndex === k &&` rendering of the sample body: presentation. The copy button's sample is `CopiedSample`.
- `plugins/litellm/src/plugin.ts`, `plugins/litellm/config.d.ts` and `plugins/litellm/dev/index.tsx`: plugin registration, config schema and development harness. They hold no logic.
