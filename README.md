# Nexfy core, modelled in Dafny

Nexfy is a personal-finance application. This project models its core logic:

- **The WhatsApp webhook** (`whatsapp/webhook/main.py`). It receives one message delivery from the messaging gateway. It filters events and the bot's own messages, derives the sender's phone from the JID and picks the message text. It then handles the `/login` command, gates on the in-memory token cache and cleans the classifier's code-fenced reply. Finally it dispatches to the backend and sends exactly one reply.
- **The backend's per-user ledger handlers**: transactions, investments, fixed bills (`contas_fixas`) and goals (`metas`). Each handler sees only the caller's rows. "Not found" covers both a missing id and another user's row.
- **The in-memory user store** of `/auth`.
- **The financial context** given to the assistant chat (`ai/router.py`).
- **The phone-number screen** of the mobile app: its live formatter, validator and submit gate.

Files:

- `basics.dfy`: `Option`, `Result`, `HttpError`.
- `sorting.dfy`: a stable sort by a real key. This is the model of `order_by` and `sorted`.
- `store.dfy`: the owner-scoped table every ledger router uses. It is a class over `map<int, Row<R>>` with an auto-increment id.
- `transactions.dfy`, `investments.dfy`, `bills.dfy`, `goals.dfy`: the four ledger routers.
- `financial_context.dfy`: the assistant's context.
- `auth.dfy`: the `/auth` user store.
- `phone.dfy`: the phone screen.
- `webhook_text.dfy`: Python's `strip`, `split`, `replace` and `startswith` as the webhook uses them, and the code-fence cleaner.
- `webhook.dfy`: the delivery pipeline and the `USER_TOKENS` cache.

Modelling choices:

- **Webhook.** `Handle` is the pure description of one delivery, given the token cached for the sender. `TokenCache.Webhook` is the step-by-step handler over the token map, proved to do what `Handle` says.
- **Webhook inputs.** The classifier, the audio transcription and the backend calls are inputs in a `World` value: the reply text, `json.loads`, the login answer, the create status and the summary answer.
- **Database.** Each ledger's table is a `Store.Table` object. Create, update, delete, toggle and add-to-balance are methods that change it. The queries are functions that read it.
- **Numbers and dates.** Amounts are `real`. Dates are day numbers, so they compare as integers.

The classifier can return JSON that is not an object, for example a number. `process_with_gemini` returns such a value as it is. The handler's `result.get` call then raises, and the catch-all turns that into status "error" with no reply (main.py:252, 287-289). The model keeps this path (`Webhook.NonObjectCrashes`).

The gateway's `register_user` posts the credentials as form data with the fields `username` and `password` (whatsapp/webhook/main.py:123-126). The backend's `/auth/login` reads a JSON `UserLogin` body (backend/app/auth/router.py:67-68). From the two definitions, the backend would refuse that request with status 422, so against this backend a WhatsApp `/login` could not succeed (not executed). The model keeps the login answer as an input (`World.login`), so `Webhook.LoginOpensSession` describes the gateway with a backend that accepts its request.

The auth router imports `AuthProvider` from `app.models.user` and stores `AuthProvider.local` as a new user's provider (backend/app/auth/router.py:3, 56). The models file `backend/app/models/user.py` defines no `AuthProvider`, so as written that import would fail when the module loads (not executed). The model stores the provider as the text "local", which is what the router evidently means.

The code-fence round trip needs one more condition than "the body contains no fence": the body must also not end in a backtick. For the body "a`", the text "```json" + "a`" + "```" holds a fence that starts inside the body, and the cleaner yields "a". `WebhookText.JsonFenceRoundTrip` and `WebhookText.PlainFenceRoundTrip` state the condition.

## Model

| member | source | states |
|---|---|---|
| Sorting.SortBy | backend/app/ai/router.py:56 | the result is ordered by the key, is a permutation of the input and has its length |
| Sorting.SortByMembers | backend/app/ai/router.py:56 | sorting neither adds nor loses an element |
| Sorting.SortKeepsDistinctKeys | backend/app/contas_fixas/router.py:47 | sorting rows that each appear once keeps each appearing once |
| Store.Owned | backend/app/transactions/router.py:48-50 | the rows below an id bound owned by a user: each is in the table under that owner, all such rows are present, ids increase |
| Store.OwnedDependsOnlyOnOwner | backend/app/transactions/router.py:48-50 | a user's rows depend only on the rows that user owns |
| Store.OwnedAfterAdd | backend/app/transactions/router.py:28-30 | adding a row appends it to its owner's rows and leaves every other user's rows as they were |
| Store.OwnedComplete | backend/app/transactions/router.py:38-40 | with every id below the bound, the owner's list holds exactly the owner's rows and is as long as the set of their ids |
| Store.Table.constructor | backend/app/transactions/router.py:28-30 | an empty table whose first id is 1 |
| Store.Table.OwnedBy | backend/app/transactions/router.py:38-40 | a pair is listed iff that id holds that record for that user; ids strictly increase, so each row appears once, and the length is the number of the caller's rows |
| Store.Table.Find | backend/app/transactions/router.py:68-71 | a record is found iff the id exists and the caller owns it |
| Store.Table.Add | backend/app/transactions/router.py:28-30 | the new id is fresh; the table gains exactly that row, owned by the caller |
| Store.Table.Put | backend/app/transactions/router.py:99-103 | only that row changes and its owner is kept |
| Store.Table.Remove | backend/app/transactions/router.py:123-124 | exactly that id is removed |
| Transactions.TipoTransacao.Name | backend/app/models/transaction.py:6-8 | the enum maps to "receita" or "despesa", one each |
| Transactions.FromCreate | backend/app/transactions/router.py:20-27 | the stored row carries the input's fields |
| Transactions.SumKindAppend | backend/app/transactions/router.py:52-53 | a sum by kind over two lists is the sum of the two sums |
| Transactions.SumKind | backend/app/transactions/router.py:52-53 | definition (the sum of `valor` over the rows of one `tipo`); its properties are stated by Transactions.SumKindAppend, Transactions.OtherKindsNotCounted and Transactions.SummaryOf |
| Transactions.SummaryOf | backend/app/transactions/router.py:52-54 | saldo = receitas - despesas |
| Transactions.OtherKindsNotCounted | backend/app/transactions/router.py:52-53 | a row of any kind other than receita or despesa changes neither sum |
| Transactions.ApplyUpdate | backend/app/transactions/router.py:98-100 | each sent field replaces the stored one; each unsent field is kept |
| Transactions.UpdateIdempotent | backend/app/transactions/router.py:98-100 | applying the same payload twice equals applying it once |
| Transactions.GetTransaction | backend/app/transactions/router.py:68-78 | Ok iff the id exists and is the caller's, with that row's data; otherwise 404 "Transação não encontrada" |
| Transactions.ListTransactions | backend/app/transactions/router.py:38-41 | exactly the caller's rows, each once, as a permutation of them, dates non-increasing; the length is the number of the caller's rows |
| Transactions.GetSummary | backend/app/transactions/router.py:48-60 | receitas and despesas are the sums of the caller's receita and despesa values; saldo is their difference |
| Transactions.SummaryIgnoresOtherUsers | backend/app/transactions/router.py:48-53 | two tables that agree on a user's rows give that user the same summary |
| Transactions.SummaryAfterCreate | backend/app/transactions/router.py:20-31 | a new row adds its value to its owner's sum of its kind and to no other sum |
| Transactions.CreateTransaction | backend/app/transactions/router.py:20-31 | stores the payload under the caller at a fresh id, and a later get of that id returns it |
| Transactions.UpdateTransaction | backend/app/transactions/router.py:87-104 | 404 with the table unchanged for a missing or foreign id; otherwise only that row gets the partial update |
| Transactions.DeleteTransaction | backend/app/transactions/router.py:112-125 | 404 with the table unchanged for a missing or foreign id; otherwise exactly that row is removed and the message is returned |
| FinancialContext.RecentWindow | backend/app/ai/router.py:29-31 | the first min(50, n) of the caller's rows in newest-first order |
| FinancialContext.WindowIsMostRecent | backend/app/ai/router.py:29-31 | a row of the caller left out of the window is no newer than any row in it |
| FinancialContext.GroupTotals | backend/app/ai/router.py:41-46 | the dictionary built by the loop holds, per category, that category's expense total |
| FinancialContext.GroupSum | backend/app/ai/router.py:41-46 | the category totals add up to the expense sum |
| FinancialContext.GroupExpenses | backend/app/ai/router.py:41-46 | the keys are exactly the expense categories, in first-seen order without repeats; each total is that category's expense sum; the totals add up to despesas |
| FinancialContext.SortedCategoryTotals | backend/app/ai/router.py:56-57 | each expense category once with its total, non-increasing by total, summing to despesas |
| FinancialContext.LineOf | backend/app/ai/router.py:60-62 | "+" for receita and "-" otherwise; a missing or empty description becomes "Sem descrição" |
| FinancialContext.ListLines | backend/app/ai/router.py:60-62 | the lines of the first min(n, length) entries, in order |
| FinancialContext.GetUserFinancialContext | backend/app/ai/router.py:27-64 | the fixed no-transactions text iff the caller has no rows; otherwise sums over the window with saldo = receitas - despesas, categories as above, and at most 10 lines |
| Auth.PublicView | backend/app/auth/router.py:31-36 | the returned user has the stored id, email, name and provider |
| Auth.UserStore.constructor | backend/app/auth/router.py:10-11 | no users and the counter at 0 |
| Auth.UserStore.Register | backend/app/auth/router.py:38-65 | a taken email gives 400 and changes nothing; otherwise the counter goes up by 1 and becomes the id, which is larger than every earlier one; only the new key is added, with provider local; the reply equals the stored entry |
| Auth.UserStore.Login | backend/app/auth/router.py:67-85 | Ok iff the email is known and the password verifies, with a bearer token made for that email; both failures give the same 401 |
| Auth.UserStore.GetCurrentUser | backend/app/auth/router.py:13-36 | 401 "Token inválido ou expirado" when decoding fails; Ok iff the sub claim is present and known, with that user; otherwise 401 "Usuário não encontrado" |
| Auth.RegisterThenLogin | backend/app/auth/router.py:38-85 | a fresh registration followed by a login with the same password succeeds, with a token for that email |
| Investments.MinimalCreate | backend/app/models/investimento.py:5-15 | a payload with only the required fields holds one unit and no ticker |
| Investments.FromCreate | backend/app/investimentos/router.py:19-27 | the stored row carries the input's fields |
| Investments.SumsAppend | backend/app/investimentos/router.py:49-50 | both totals over two lists are the sums of the totals of each |
| Investments.ResumoOf | backend/app/investimentos/router.py:49-57 | the totals are the sums and quantidade is the count; rentabilidade × total_investido = (total_atual − total_investido) × 100 when total_investido > 0, and 0 otherwise |
| Investments.ListInvestimentos | backend/app/investimentos/router.py:38 | exactly the caller's investments, each once, in id order |
| Investments.GetResumo | backend/app/investimentos/router.py:45-58 | the summary's totals and rentabilidade as above over the caller's investments; the count is the number of the caller's investments |
| Investments.ResumoAfterCreate | backend/app/investimentos/router.py:19-31 | a new investment adds its values and one to its owner's summary, and leaves every other user's summary unchanged |
| Investments.ApplyUpdate | backend/app/investimentos/router.py:75-77 | each sent field replaces the stored one; each unsent field is kept |
| Investments.CreateInvestimento | backend/app/investimentos/router.py:19-31 | stores the payload under the caller at a fresh id |
| Investments.UpdateInvestimento | backend/app/investimentos/router.py:67-81 | 404 without change for a missing or foreign id; otherwise only that row gets the partial update |
| Investments.DeleteInvestimento | backend/app/investimentos/router.py:89-99 | 404 without change for a missing or foreign id; otherwise only that row is removed |
| Bills.MinimalCreate | backend/app/models/conta_fixa.py:5-16 | a payload with only the required fields gets category "Geral", instalment 1 of 1 and currency BRL |
| Bills.FromCreate | backend/app/contas_fixas/router.py:19-29 | copies the input fields; the bill starts unpaid, in BRL |
| Bills.FilterPeriod | backend/app/contas_fixas/router.py:43-46 | keeps exactly the entries of the requested month and year, each filter applying only when its value is given and non-zero; no entry becomes repeated |
| Bills.ListContasFixas | backend/app/contas_fixas/router.py:42-47 | a bill is listed iff it is the caller's and matches the truthy filters, each bill once; due days non-decreasing |
| Bills.UnfilteredListsAll | backend/app/contas_fixas/router.py:43-46 | with no month and year 0, every bill of the caller is listed |
| Bills.Toggled | backend/app/contas_fixas/router.py:86 | pago is negated and nothing else changes |
| Bills.ToggleTwice | backend/app/contas_fixas/router.py:86 | toggling twice restores the bill |
| Bills.ApplyUpdate | backend/app/contas_fixas/router.py:64-66 | each sent field replaces the stored one; each unsent field, and the reference month and year, are kept |
| Bills.CreateContaFixa | backend/app/contas_fixas/router.py:19-33 | stores the new bill under the caller at a fresh id |
| Bills.UpdateContaFixa | backend/app/contas_fixas/router.py:56-70 | 404 "Conta não encontrada" without change for a missing or foreign id; otherwise only that row gets the partial update |
| Bills.TogglePago | backend/app/contas_fixas/router.py:78-89 | 404 without change for a missing or foreign id; otherwise only that row is toggled |
| Bills.DeleteContaFixa | backend/app/contas_fixas/router.py:97-107 | 404 without change for a missing or foreign id; otherwise only that row is removed |
| Goals.MinimalCreate | backend/app/models/meta.py:5-11 | a payload with only the required fields gets category "Geral", colour "#10b981" and no deadline |
| Goals.FromCreate | backend/app/metas/router.py:19-26 | copies the input fields; valor_atual starts at 0 and moeda is BRL |
| Goals.ListMetas | backend/app/metas/router.py:37 | exactly the caller's goals |
| Goals.ApplyUpdate | backend/app/metas/router.py:54-56 | each sent field replaces the stored one, including an explicit null deadline; each unsent field is kept |
| Goals.AddValue | backend/app/metas/router.py:77 | valor_atual grows by exactly valor; nothing else changes |
| Goals.AddValueTwice | backend/app/metas/router.py:77 | two deposits equal one deposit of their sum |
| Goals.AddValueIsUpdate | backend/app/metas/router.py:77 | a deposit equals an update that sends only the new valor_atual |
| Goals.CreateMeta | backend/app/metas/router.py:19-30 | stores the new goal under the caller at a fresh id |
| Goals.UpdateMeta | backend/app/metas/router.py:46-60 | 404 "Meta não encontrada" without change for a missing or foreign id; otherwise only that row gets the partial update |
| Goals.AdicionarValor | backend/app/metas/router.py:69-80 | 404 without change for a missing or foreign id; otherwise only that goal's valor_atual grows by valor |
| Goals.DeleteMeta | backend/app/metas/router.py:88-98 | 404 without change for a missing or foreign id; otherwise only that row is removed |
| PhoneForm.Digits | app/app/cadastro-telefone.tsx:21 | the result is all digits, no longer than the input, and equal to the input when it is all digits |
| PhoneForm.DigitsAppend | app/app/cadastro-telefone.tsx:21 | the digits of a concatenation are the concatenated digits |
| PhoneForm.FormatPhoneCases | app/app/cadastro-telefone.tsx:22-24 | the shape of the text for up to 2, 3 to 7, and 8 to 11 digits |
| PhoneForm.FormatPhone | app/app/cadastro-telefone.tsx:19-25 | definition; its properties are stated by PhoneForm.FormatPhoneCases, PhoneForm.FormatPhoneDigits, PhoneForm.FormatPhoneTruncates and PhoneForm.FormatPhoneIdempotent |
| PhoneForm.IsValidPhone | app/app/cadastro-telefone.tsx:28-31 | definition (10 or 11 digits); its properties are stated by PhoneForm.FormattedValidity and PhoneForm.SubmitPayloadRoundTrip |
| PhoneForm.FormatPhoneDigits | app/app/cadastro-telefone.tsx:21-25 | the digits of the formatted text are exactly the first min(n, 11) digits of the input |
| PhoneForm.FormatPhoneTruncates | app/app/cadastro-telefone.tsx:25 | with more than 11 digits, the text equals that of the first 11 |
| PhoneForm.FormatPhoneIdempotent | app/app/cadastro-telefone.tsx:20-26 | formatting formatted text changes nothing |
| PhoneForm.FormattedValidity | app/app/cadastro-telefone.tsx:29-40 | the formatted field passes the validator iff at least 10 digits were typed |
| PhoneForm.Submit | app/app/cadastro-telefone.tsx:43-57 | an invalid phone is refused with the DDD alert before any request; a valid one is sent as its 10 or 11 digits |
| PhoneForm.SubmitPayloadRoundTrip | app/app/cadastro-telefone.tsx:38-57 | the sent payload passes the validator again and formats back to the field's text |
| PhoneForm.OnAnswer | app/app/cadastro-telefone.tsx:60-72 | success marks the phone registered; a rejection shows the detail or the default text; a network failure shows the connection text |
| WebhookText.TrimLeft | whatsapp/webhook/main.py:99 | drops exactly the leading Python whitespace |
| WebhookText.TrimRight | whatsapp/webhook/main.py:99 | drops exactly the trailing Python whitespace |
| WebhookText.Strip | whatsapp/webhook/main.py:106 | the result has no whitespace at either end |
| WebhookText.CleanReply | whatsapp/webhook/main.py:99-106 | definition; its properties are stated by WebhookText.JsonFenceRoundTrip, WebhookText.PlainFenceRoundTrip and WebhookText.UnfencedOnlyStripped |
| WebhookText.StripKeeps | whatsapp/webhook/main.py:106 | text with no whitespace at either end is unchanged |
| WebhookText.StripIdempotent | whatsapp/webhook/main.py:99-106 | stripping twice equals stripping once |
| WebhookText.UntilFence | whatsapp/webhook/main.py:103 | the piece is a prefix of the text |
| WebhookText.UntilClosingFence | whatsapp/webhook/main.py:103 | the piece before the closing fence is the whole fence-free body |
| WebhookText.JsonFenceRoundTrip | whatsapp/webhook/main.py:99-106 | "```json" + P + "```" is cleaned to strip(P), for P fence-free and not ending in a backtick |
| WebhookText.PlainFenceRoundTrip | whatsapp/webhook/main.py:99-106 | "```" + P + "```" is cleaned to strip(P), for such P not starting with "json" |
| WebhookText.UnfencedOnlyStripped | whatsapp/webhook/main.py:99-106 | a reply that does not open with a fence is only stripped |
| WebhookText.RemoveAll | whatsapp/webhook/main.py:192 | removing a pattern never lengthens the text |
| WebhookText.PhoneOf | whatsapp/webhook/main.py:192 | definition; its properties are stated by WebhookText.PhoneOfJid and WebhookText.PhoneOfNoAt |
| WebhookText.PhoneOfJid | whatsapp/webhook/main.py:192 | N + "@s.whatsapp.net" gives N when N has no '@' |
| WebhookText.PhoneOfNoAt | whatsapp/webhook/main.py:192 | a JID without '@' is kept whole |
| WebhookText.AsciiLower | whatsapp/webhook/main.py:227 | upper-case letters map to lower case; every other character is kept |
| WebhookText.IsLoginCommand | whatsapp/webhook/main.py:227 | definition; its properties are stated by WebhookText.LoginCommandCaseInsensitive and Webhook.LoginCommandPath |
| WebhookText.LoginCommandCaseInsensitive | whatsapp/webhook/main.py:227 | "/LOGIN" and "/Login" match, "/logout" and text with a leading space do not |
| WebhookText.TakeWord | whatsapp/webhook/main.py:228 | the longest whitespace-free prefix |
| WebhookText.Words | whatsapp/webhook/main.py:228 | every part is non-empty and free of whitespace |
| WebhookText.WordsUnwords | whatsapp/webhook/main.py:228-231 | splitting words joined by spaces returns those words, so parts[1] and parts[2] are the typed email and password |
| Webhook.ProcessWithGemini | whatsapp/webhook/main.py:95-111 | a failed call or a failed parse gives the fallback record; otherwise the result is the parse of the cleaned reply |
| Webhook.FencedReplyDecoded | whatsapp/webhook/main.py:99-108 | a reply in a json code block is decoded from its stripped body |
| Webhook.ChooseAction | whatsapp/webhook/main.py:252-280 | a record happens iff the kind is despesa or receita and valor is non-zero, with that kind and valor, categoria defaulting to "Geral" and descricao to ""; a summary iff saldo or consulta; otherwise the classifier's resposta or the default text |
| Webhook.BillIntentOnlyAnswered | whatsapp/webhook/main.py:279-280 | a conta_fixa intent is not dispatched; it only gets a text reply |
| Webhook.ExtractText | whatsapp/webhook/main.py:196-216 | conversation first, then extended text, then the audio transcript, else none |
| Webhook.Accepted | whatsapp/webhook/main.py:182-189 | definition (the event is "messages.upsert" and `fromMe` is false); its properties are stated by Webhook.Handle |
| Webhook.LoginReply | whatsapp/webhook/main.py:228-237 | with 3 or more parts, one login with parts[1] and parts[2] and the success or failure text; otherwise the usage text and no call |
| Webhook.Perform | whatsapp/webhook/main.py:258-280 | a record makes one create with the session token and the date; a summary makes one fetch; the reply is the template or the error text by outcome |
| Webhook.Handle | whatsapp/webhook/main.py:174-289 | other events and own messages are ignored with no send or call; "no text" iff the text is missing or empty; at most one send, and exactly one iff the status is ok; every send goes to the sender's phone and instance |
| Webhook.LoginCommandPath | whatsapp/webhook/main.py:227-238 | a /login in any case gives one reply and no classification; it logs in with parts[1] and parts[2] and stores the answer, or sends the usage text |
| Webhook.OnlyLoginStores | whatsapp/webhook/main.py:128-131 | a token is stored only by an accepted /login delivery |
| Webhook.NoSessionOnboarding | whatsapp/webhook/main.py:241-246 | with no or an empty token, the only effect is the onboarding reply |
| Webhook.ClassifiedOutcome | whatsapp/webhook/main.py:249-283 | with a session, the text is classified and the reply and call of its action follow |
| Webhook.FollowUpCalls | whatsapp/webhook/main.py:252-280 | the classification comes first, then at most one call, carrying the token; a create iff the action is a record |
| Webhook.SessionDispatch | whatsapp/webhook/main.py:249-283 | with a session the delivery is answered once, classified once, makes at most one backend call with the session's token, stores nothing, and creates a transaction iff the kind is despesa or receita with a non-zero valor |
| Webhook.RecordedFields | whatsapp/webhook/main.py:252-270 | an expense or income intent with a non-zero valor makes one create with that kind and valor, the session token, the date, categoria defaulting to "Geral" and descricao to "" |
| Webhook.NonObjectCrashes | whatsapp/webhook/main.py:252 | a classifier answer that is JSON but not an object ends the delivery in "error", unanswered |
| Webhook.TokenCache.constructor | whatsapp/webhook/main.py:23 | the cache starts empty |
| Webhook.TokenCache.Get | whatsapp/webhook/main.py:113-117 | the phone's token if it has one, else none; a lookup changes nothing |
| Webhook.TokenCache.RegisterUser | whatsapp/webhook/main.py:119-134 | true iff the login answered with a token, which then overwrites the phone's entry; otherwise the cache is unchanged |
| Webhook.TokenCache.SetToken | whatsapp/webhook/main.py:291-295 | the phone's entry is overwritten with the given token |
| Webhook.TokenCache.Webhook | whatsapp/webhook/main.py:174-285 | the delivery's outcome is Handle's for the token cached before it; the cache changes only by the sender's successful /login |
| Webhook.LoginOpensSession | whatsapp/webhook/main.py:224-249 | after a /login that stored a non-empty token, the sender's next ordinary message is classified |

## Left out

- Network and other external services: HTTP requests to the backend and to the messaging gateway, the Gemini calls, the audio download, base64 and temporary files. These become inputs of a delivery in `Webhook.World`; messages sent are recorded, not sent.
- The prompt strings and the chat endpoint of `ai/router.py:66-142`. They are LLM calls.
- Password hashing, password checking, token creation and token decoding. These are parameters the model does not interpret.
- Float formatting (`:.2f`) and IEEE rounding. Amounts are exact `real`s. The templated replies and the context text are structured values, and their layout is not modelled.
- `datetime.now()`: the date of a new transaction is an input of the delivery.
- The `/seed` and `/seed-multi` endpoints (`transactions/router.py:127-204`) and `seed.py`. They are driven by randomness.
- Concurrency: deliveries are handled one at a time against the token cache.
- Webhook.Handle: the JSON body is taken as already parsed into the fields the handler reads. A body whose fields have other JSON types is not modelled. That includes a non-numeric `valor`, a null `categoria`, `descricao` or `resposta`, and a non-boolean `fromMe`. A failing `request.json()` and the other exceptions the catch-all would turn into "error" are not modelled either.
- moeda: the transaction and investment tables have no such column, so it is dropped there. For bills and goals the create handlers do not copy it, and the stored value is the column default "BRL".
- Transactions.ApplyUpdate, Investments.ApplyUpdate, Bills.ApplyUpdate, Goals.ApplyUpdate: an explicit JSON null is modelled only for `descricao`, `ticker` and `data_limite`. Those are the columns an API client may legitimately clear. Every other field of an update schema is `Optional` too, so a client may send null for it. Where the column is `nullable=False` the commit fails (status 500). Where the column only has a default, the null is stored. Examples are the goal's `valor_atual`, `categoria` and `cor` (models/meta_db.py:11-14), the bill's `categoria`, `pago` and `parcela_*`, and the investment's `quantidade`. A goal whose `valor_atual` is NULL then makes `adicionar_valor` raise a `TypeError` (status 500). The model's row fields cannot hold NULL, so these paths are not modelled.
- Bills.MinimalCreate, Investments.MinimalCreate, Goals.MinimalCreate: the create schemas' defaulted fields are `Optional`, so a create may also send an explicit null for them, which is stored as NULL. Those columns are `categoria`, `parcela_atual`, `parcela_total` and `quantidade`, and for goals `categoria` and `cor`. The create payloads hold plain values, so such a create is not modelled.
- Auth.UserStore.Register, Auth.UserStore.Login: `email` is a pydantic `EmailStr` (models/user.py:5,10), so a malformed address is answered with status 422 before the handler runs. The handler also receives the address as pydantic normalizes it, with the domain lower-cased, and `fake_users_db` is keyed by that form. So `a@X.com` counts as taken after `a@x.com`, and a login as `a@X.COM` finds that user. The model takes the email as already normalized, and does not model either the syntax check or the normalization.
- Bills.ListContasFixas: the database does not fix the order of bills with the same due day. The model keeps them in id order. Investments and goals are listed in id order for the same reason.
- Webhook.ExtractText: the audio branch folds "media URL present, download answered 200, transcription succeeded" into one optional transcript.
- PhoneForm.OnAnswer: the answer comes as one of three cases. A rejection whose body is not JSON makes `response.json()` throw (cadastro-telefone.tsx:65), and the catch then shows the connection text (tsx:67-68). The model takes the answer as an input, so such a reply has to be given as `Unreachable`, which ends in the same text; a `Rejected` answer always carries a parsed body. The text input's `maxLength={15}` (tsx:100) is not modelled either: the model formats the whole typed text, so for pasted text longer than 15 characters it may keep digits that the input would have cut off.
- Auth.UserStore.GetCurrentUser: the `HTTPBearer()` dependency (auth/router.py:6, 12) answers status 403 when the `Authorization` header is missing or is not a Bearer credential, before `get_current_user` runs. The model starts from the token string and covers only the two 401 answers.
- WebhookText.IsLoginCommand: `text.lower()` is modelled by lower-casing ASCII letters of the first six characters. No other character's lower-case form begins a match of "/login" at the same position, so the test gives the same answer. For example, 'İ' lower-cases to "i" followed by a combining dot, and the dot then fails the next position.
- The ORM: `db.add`, `commit` and `refresh` are map updates on `Store.Table`. Server-set timestamps are not modelled.
- The rest of the mobile app (screens, storage, API client, theme) and the backend's app and config wiring. These are UI or configuration code.
