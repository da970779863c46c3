# Ozon analytics assistant — a Dafny model

The system is a browser extension plus a small Node/Express server. On
seller.ozon.ru and ozon.ru pages the extension opens a chat panel. It takes
a snapshot of the page (tables, metric-like texts and headings) and sends it
with the user's question to the server. The server authenticates the API
key, formats the snapshot as Markdown and asks the Claude model. It then
debits the user's prepaid balance by the token cost and writes the request
and the answer into the chat session.

This project models that core as Dafny:

* **Store** (`store.dfy`): the Prisma tables (users, chat sessions,
  messages, transactions) as the class `Db`. Each database call the routes
  make is a method on it. The invariants are:
  * `UsersOk`: ids, emails and Telegram ids are unique;
  * `LedgerMatches`: every balance equals the signed sum of the user's
    ledger rows;
  * `SessionsOk`: at most one active session per user and domain;
  * `Solvent`: balances are non-negative.
* **Routes**: every route handler that changes the store has two parts.
  * A spec function (`ChatTurn`, `RegisterTurn`, `TelegramTurn`, …) maps the
    old tables to the reply and the new tables.
  * A method runs the handler's database calls in order against `Db`, and
    its `ensures` ties it to that spec function.
  * Lemmas prove what the route promises: the error order, the exact rows
    written, and that the invariants are kept.
  * Read-only handlers are functions.
* **Page formatting and pricing** (`page_format.dfy`, `claude_service.dfy`).
  * `formatPageData` is specified twice: as a list of lines, and as the text
    those lines render to. The method builds the string with the same
    appending loops as the source.
  * The cost formula, the message list sent to the model and the choice of
    reply text are functions and methods.
* **Helpers**: API-key generation, the string helpers, the domain
  classifier and the error handler.
* **Extension** (`background.dfy`, `content.dfy`).
  * The service worker's `chrome.storage.local` state is the class
    `ExtensionStorage`. Its fields are the storage map and the API key.
  * The content script's chat panel is the class `ChatPanel`, with its
    session id, balance, loading flag, usage text and message bubbles as
    fields.
  * The page snapshot (`collectPageData`) is a set of loops over an
    abstract page. That page holds the tables' cell texts, the texts under
    the metric selectors, and the headings.

Calls into code that cannot be seen here are function parameters:
* bcrypt `compare`;
* JWT `sign` and `verify`;
* the zod email check;
* the Anthropic SDK call;
* the HMAC digest;
* the server's answers to the extension's `fetch`.

Values drawn from outside are plain parameters: uuids, bcrypt hashes, the
current time, and the start of today, the week and the month. Money is
`real`. Record ids are drawn from a counter in `Db`.

Where the code and its own comments disagree, the code is followed:
* The chat route reads the oldest 20 messages of a session. Its comment
  speaks of the last 20.
* `verifyTelegramAuth` exists but the Telegram route never calls it. The
  route's own check is commented out. So the model's `TelegramTurn` does
  not verify the hash either.

## Model

| member | source | states |
|---|---|---|
| Store.UserById | server/src/middleware/auth.ts:27-29 | the first user with the id asked for; none is found only when no user has it |
| Store.UserByEmail | server/src/routes/auth.ts:84-86 | the first user holding the email, or none when no user holds it |
| Store.UserByTelegramId | server/src/routes/telegram.ts:58-60 | the user found has that Telegram id; none means no user has it |
| Store.ActiveSessionById | server/src/routes/chat.ts:44-54 | a session is found only if it has that id, belongs to the user and domain and is active |
| Store.OwnedSession | server/src/routes/chat.ts:203-208 | a session is found only if it has that id and belongs to the user; none means no such row |
| Store.MessagesOf | server/src/routes/chat.ts:215-217 | only messages of that session, each one a stored message |
| Store.MessagesOfAppend | server/src/routes/chat.ts:109-130 | a new message extends a session's history, at its end, exactly when it belongs to that session |
| Store.LedgerAppend | server/src/routes/admin.ts:107-120 | a ledger row changes only its owner's signed sum, by its amount |
| Store.LedgerAfterNewUser | server/src/routes/auth.ts:38-55 | a new user with balance b plus one ledger row of b keeps every balance equal to its ledger |
| Store.LedgerAfterEntry | server/src/routes/chat.ts:132-147 | moving a balance by x together with a ledger row of x keeps every balance equal to its ledger |
| Store.LedgerAfterProfileUpdate | server/src/routes/telegram.ts:83-89 | changing a user's names leaves the balance–ledger agreement intact |
| Store.NewestFirst | server/src/routes/admin.ts:57-60 | the rows in reverse creation order |
| Store.SkipTake | server/src/routes/billing.ts:36-41 | at most `take` rows, starting at position `skip` |
| Store.UsageCount | server/src/routes/billing.ts:48-56 | the number of usage rows in the filter is at most the number of rows |
| Store.UsageAppend | server/src/routes/billing.ts:48-56 | the sum and the count of usage rows grow only by a usage row that passes the filter |
| Store.UsageSumNonPositive | server/src/routes/billing.ts:48-56 | while usage rows are debits, their sum is at most zero |
| Store.Deactivated | server/src/routes/chat.ts:57-66 | `updateMany` switches off exactly the sessions of the user and domain and changes no other row |
| Store.DeactivateThenCreate | server/src/routes/chat.ts:56-74 | deactivating and then creating a session keeps at most one active session per user and domain |
| Store.WithoutOwned | server/src/routes/chat.ts:250-255 | `deleteMany` removes exactly the rows with that id owned by the user |
| Store.WithoutOwnedKeeps | server/src/routes/chat.ts:250-255 | the single-active-session rule survives the deletion |
| Store.NewUserTablesOk | server/src/routes/auth.ts:38-55 | creating a user with a fresh email and Telegram id and a matching bonus row keeps every table invariant |
| Store.ProfileUpdateTablesOk | server/src/routes/telegram.ts:83-89 | a name update keeps every table invariant |
| Store.EntryTablesOk | server/src/routes/admin.ts:107-120 | a balance change paired with its ledger row keeps every table invariant |
| Store.Db.CreateUser | server/src/routes/auth.ts:38-45 | the new user gets the next id and is appended; the other tables stay as they were |
| Store.Db.UpdateUser | server/src/routes/chat.ts:132-137 | only the user at that position is replaced |
| Store.Db.CreateTransaction | server/src/routes/chat.ts:139-147 | the row is appended to the ledger; nothing else changes |
| Store.Db.UpdateUserWithTransaction | server/src/routes/admin.ts:107-120 | the balance update and its ledger row happen together, as in `$transaction` |
| Store.Db.DeactivateSessions | server/src/routes/chat.ts:57-66 | the sessions become `Deactivated` for the user and domain |
| Store.Db.CreateSession | server/src/routes/chat.ts:68-73 | a new active session with the next id is appended |
| Store.Db.DeleteSessions | server/src/routes/chat.ts:250-255 | the sessions become `WithoutOwned` |
| Store.Db.CreateMessage | server/src/routes/chat.ts:110-130 | a message with the next id is appended to the session |
| Strings.ContainsTransitive | server/src/routes/chat.ts:26-30 | containment is transitive: a URL containing "seller.ozon.ru" contains "ozon.ru" |
| Strings.ReplaceAllRemoves | server/src/utils/apiKey.ts:5-8 | after `replace(/c/g, '')` the character no longer occurs |
| Strings.ReplaceAllKeepsOthers | server/src/utils/apiKey.ts:5-8 | a text without the character is left as it is |
| Strings.RemoveLength | server/src/utils/apiKey.ts:5-8 | removing a character shortens the text by the number of its occurrences |
| Strings.Trim | content.js:247 | the result is the slice of the input left after removing the leading and the trailing white space, and neither starts nor ends with white space |
| Strings.CollapseSpacesSingle | content.js:252-254 | after `replace(/\s+/g, ' ')` no two white-space characters are adjacent and only plain spaces remain |
| Strings.NatToString | server/src/services/claude.ts:44 | the decimal text of a number is non-empty and made of digits |
| Strings.NatToStringValue | server/src/services/claude.ts:44 | the digits read back as the number: `${n}` names n |
| Strings.Split | server/src/middleware/auth.ts:23 | there is always a first field, and at least two when the separator occurs |
| Strings.SplitAfterPrefix | server/src/middleware/auth.ts:23 | "Bearer t" split on a space has t's first field as its second field |
| Domain.DomainOf | server/src/routes/chat.ts:26-30 | the domain is one of the three; it is seller.ozon.ru exactly when the URL contains it |
| Domain.SellerContainsOzon | server/src/routes/chat.ts:26-30 | a seller URL is also an ozon.ru URL, so the first test wins |
| Domain.DomainCases | server/src/routes/chat.ts:26-30 | "unknown" exactly when "ozon.ru" is absent; "ozon.ru" exactly when that is present and the seller host is not |
| Domain.DomainsDistinct | server/src/routes/chat.ts:26-30 | the three domain labels are distinct |
| PageFormat.FormattedOpening | server/src/services/claude.ts:28-31 | the text opens with the heading line, a blank line, the URL, title and time lines, and a blank line |
| PageFormat.TableRowCount | server/src/services/claude.ts:48-56 | a table shows min(20, number of rows) data rows |
| PageFormat.TableMoreRows | server/src/services/claude.ts:53-55 | the "more rows" line appears exactly when a table has more than 20 rows, and names the excess |
| PageFormat.TableHeaderLine | server/src/services/claude.ts:45-47 | the header line appears exactly when the table has headers, and lists them |
| PageFormat.SectionsPresent | server/src/services/claude.ts:33-82 | each section title appears exactly when its list is non-empty |
| PageFormat.MetricsCapped | server/src/services/claude.ts:61-71 | only the first 50 metrics are rendered |
| PageFormat.MetricLinesAtMostOneEach | server/src/services/claude.ts:63-70 | each metric gives at most one line |
| PageFormat.FormatPageData | server/src/services/claude.ts:27-85 | the string built equals the rendering of the specified line list |
| PageFormat.FormatTexts | server/src/services/claude.ts:33-39 | the texts section as specified |
| PageFormat.FormatTables | server/src/services/claude.ts:41-59 | the tables section as specified |
| PageFormat.FormatTable | server/src/services/claude.ts:42-58 | one table's lines as specified |
| PageFormat.FormatRows | server/src/services/claude.ts:48-56 | the first 20 rows and the "more" line as specified |
| PageFormat.FormatMetrics | server/src/services/claude.ts:61-71 | the metrics section as specified |
| PageFormat.FormatCharts | server/src/services/claude.ts:73-82 | the charts section as specified |
| ClaudeService.CalculateCost | server/src/services/claude.ts:141-148 | the cost is non-negative for a non-negative multiplier, and zero for no tokens |
| ClaudeService.CostClosedForm | server/src/services/claude.ts:141-148 | cost = (in·15 + out·75)·multiplier / 1 000 000, for every multiplier |
| ClaudeService.Multiplier | server/src/services/claude.ts:142 | the markup is the PRICE_MULTIPLIER value when set and 3 otherwise, non-negative for a non-negative setting |
| ClaudeService.DefaultCost | server/src/services/claude.ts:142-147 | with PRICE_MULTIPLIER unset the markup is 3: cost = (in·45 + out·225) / 1 000 000 |
| ClaudeService.CostMonotone | server/src/services/claude.ts:141-148 | more tokens never cost less |
| ClaudeService.Question | server/src/services/claude.ts:107-121 | the user turn starts with the formatted page and ends with the question after the separator and the bold label |
| ClaudeService.BuildMessages | server/src/services/claude.ts:107-121 | the history in order, then one user turn with the question |
| ClaudeService.FirstText | server/src/services/claude.ts:130-131 | the first text block's text, or "" when there is none |
| ClaudeService.SendToClaude | server/src/services/claude.ts:99-138 | a failed SDK call fails; otherwise the first text with the reported input and output tokens |
| ApiKey.GenerateApiKey | server/src/utils/apiKey.ts:5-8 | the key is "oaa_" followed by the uuid with its hyphens removed |
| ApiKey.KeyKeepsHyphenFreeText | server/src/utils/apiKey.ts:5-8 | a hyphen-free uuid is kept as it is |
| ApiKey.CanonicalKeyLength | server/src/utils/apiKey.ts:5-8 | for a canonical uuid (section 4 of RFC 9562) the key is 36 characters with 32 hex digits after the prefix |
| ApiKey.HyphenCount | server/src/utils/apiKey.ts:5-8 | a canonical uuid has exactly four hyphens |
| AuthMiddleware.FindKeyOwner | server/src/middleware/auth.ts:68-78 | the scan stops at the first user whose hash verifies, or reports that none does |
| AuthMiddleware.FirstKeyMatchUnique | server/src/middleware/auth.ts:68-78 | there is only one first match |
| AuthMiddleware.FirstMatchExists | server/src/middleware/auth.ts:68-78 | when some user's hash verifies, the scan has a first match, at or before that user |
| AuthMiddleware.ApiKeyMiddleware | server/src/middleware/auth.ts:49-106 | in order: 401 when the key is missing, 401 for a wrong prefix, 401 when nothing matches, 403 when blocked, 402 when the balance is ≤ 0; it passes exactly as the first matching, unblocked, funded user (`Passes`) |
| AuthMiddleware.BearerToken | server/src/middleware/auth.ts:16-23 | the token is the text after "Bearer " up to the next space |
| AuthMiddleware.BearerTokenOf | server/src/middleware/auth.ts:16-23 | "Bearer t" yields t for a token without spaces |
| AuthMiddleware.AuthMiddleware | server/src/middleware/auth.ts:10-46 | 401 with no bearer header, 401 for a token that fails to verify, 401 when its user is gone; for the stored user with the verified id, 403 when blocked and a pass otherwise, whatever the balance; a pass is the verified, unblocked stored user |
| AuthRoutes.RegisterRejections | server/src/routes/auth.ts:23-77 | a bad email, then a short password, then a taken email each give 400 and change nothing; otherwise the call succeeds |
| AuthRoutes.RegisterCreates | server/src/routes/auth.ts:38-68 | success writes exactly the new user with balance 1 and one bonus top-up of 1.0, and answers 201 with its token |
| AuthRoutes.RegisterKeepsTablesOk | server/src/routes/auth.ts:23-77 | registration keeps every table invariant |
| AuthRoutes.Register | server/src/routes/auth.ts:23-77 | the handler's store calls give the specified reply and tables and keep the invariants |
| AuthRoutes.Login | server/src/routes/auth.ts:80-122 | 400 for a bad email; the same 401 for an unknown email and for a wrong password; 403 when blocked only after the password matched; success for the first user with that email |
| AuthRoutes.FirstWithEmailOfUnique | server/src/routes/auth.ts:84-86 | with unique emails the first holder is the only one |
| AuthRoutes.RegisterThenLogin | server/src/routes/auth.ts:23-122 | right after registering, logging in with the same password succeeds as the new user with balance 1 |
| AuthRoutes.KeyTurnReplaces | server/src/routes/auth.ts:125-150 | only the caller's key hash changes; a key then matches the caller exactly when it verifies against the new hash |
| AuthRoutes.KeyTurnKeepsTablesOk | server/src/routes/auth.ts:125-150 | key regeneration keeps every table invariant |
| AuthRoutes.RegenerateApiKey | server/src/routes/auth.ts:125-150 | 401 without a caller; otherwise the new key is returned and only its hash is stored |
| AuthRoutes.Me | server/src/routes/auth.ts:153-173 | 401 without a caller; otherwise the caller's id, email and balance, with `hasApiKey` true exactly when a non-empty hash is stored |
| AuthRoutes.MeHasKeyMeansUsable | server/src/routes/auth.ts:160-168 | when `hasApiKey` is false no key can match the user; when it is true a non-empty hash is stored |
| AuthRoutes.KeyTurnThenMe | server/src/routes/auth.ts:125-173 | after regenerating, /me reports a key |
| TelegramRoutes.TelegramMissingId | server/src/routes/telegram.ts:46-49 | without an id: 400 and no change |
| TelegramRoutes.TelegramCreates | server/src/routes/telegram.ts:63-82 | an unknown id creates exactly one user with the welcome bonus and one matching top-up row |
| TelegramRoutes.TelegramRefreshes | server/src/routes/telegram.ts:83-94 | a known id changes only the given names; 403 happens exactly when the user is blocked, after the update |
| TelegramRoutes.TelegramKeepsTablesOk | server/src/routes/telegram.ts:42-114 | the route keeps every table invariant, and non-negative balances when the bonus is ≥ 0 |
| TelegramRoutes.NegativeBonusBreaksSolvency | server/src/routes/telegram.ts:9 | a negative WELCOME_BONUS gives a new user a negative balance: nothing guards it |
| TelegramRoutes.TelegramLogin | server/src/routes/telegram.ts:42-114 | the handler's store calls give the specified reply and tables and keep the invariants |
| TelegramRoutes.GetParam | server/src/routes/telegram.ts:16-18 | the value found is paired with the key; none means the key is absent |
| TelegramRoutes.DeleteParam | server/src/routes/telegram.ts:17 | exactly the pairs with other keys remain |
| TelegramRoutes.KeyLeTotal | server/src/routes/telegram.ts:21 | the key order compares any two keys |
| TelegramRoutes.Insert | server/src/routes/telegram.ts:21 | inserting adds exactly the one pair |
| TelegramRoutes.InsertSorted | server/src/routes/telegram.ts:21 | insertion keeps the list sorted |
| TelegramRoutes.SortByKey | server/src/routes/telegram.ts:20-22 | sorting is a permutation |
| TelegramRoutes.SortByKeySorted | server/src/routes/telegram.ts:20-22 | sorting yields a list ordered by key |
| TelegramRoutes.Rendered | server/src/routes/telegram.ts:22 | each pair becomes "key=value" |
| TelegramRoutes.DataCheckPairs | server/src/routes/telegram.ts:16-23 | the data-check string covers every pair but `hash`, sorted |
| TelegramRoutes.VerifyTelegramAuth | server/src/routes/telegram.ts:12-39 | false without a bot token; otherwise true exactly when the digest of the data-check string equals the `hash` value |
| TelegramRoutes.DataCheckIgnoresHash | server/src/routes/telegram.ts:17-23 | the `hash` value does not influence the string it is checked against, wherever the `hash` pair stands |
| TelegramRoutes.DeleteInsertHash | server/src/routes/telegram.ts:17 | deleting `hash` undoes inserting a `hash` pair at any position |
| TelegramRoutes.DeleteAppendHash | server/src/routes/telegram.ts:17 | deleting `hash` undoes appending it |
| AdminRoutes.AdminGuard | server/src/routes/admin.ts:9-15 | 403 unless the caller is an admin |
| AdminRoutes.TopupRejections | server/src/routes/admin.ts:90-127 | 403 for a non-admin, 400 for a missing id or a non-positive amount, then 404 for an unknown user; each changes nothing; success exactly when all pass |
| AdminRoutes.TopupByEmailRejections | server/src/routes/admin.ts:130-167 | the same order for the e-mail form: 403, 400 for a missing e-mail or a bad amount, 404 when no user holds the e-mail; success exactly when all pass |
| AdminRoutes.CreditEffect | server/src/routes/admin.ts:105-122 | a credit raises exactly that user's balance by the amount and writes one top-up row of the amount |
| AdminRoutes.CreditKeepsTablesOk | server/src/routes/admin.ts:90-167 | a top-up keeps every table invariant and non-negative balances |
| AdminRoutes.TopupByEmailIsTopup | server/src/routes/admin.ts:130-167 | top-up by email is the top-up of the first user with that email |
| AdminRoutes.AdminTopup | server/src/routes/admin.ts:90-127 | the handler's store calls give the specified reply and tables |
| AdminRoutes.AdminTopupByEmail | server/src/routes/admin.ts:130-167 | the same for the e-mail form |
| AdminRoutes.CreditFound | server/src/routes/admin.ts:105-120 | the balance update and its row are applied together |
| AdminRoutes.BlockEffect | server/src/routes/admin.ts:170-184 | only the named user's `isBlocked` flag changes, to the value asked |
| AdminRoutes.BlockKeepsTablesOk | server/src/routes/admin.ts:170-184 | blocking keeps every table invariant |
| AdminRoutes.BlockedBearerRefused | server/src/middleware/auth.ts:36-39 | after blocking, the user's valid bearer token is refused with 403 |
| AdminRoutes.BlockUser | server/src/routes/admin.ts:170-184 | the handler's store call gives the specified reply and tables |
| AdminRoutes.Revenue | server/src/routes/admin.ts:36-39 | revenue is the size of the summed usage debits, never negative |
| AdminRoutes.RevenueGrowsByCost | server/src/routes/admin.ts:36-39 | a usage row of −cost raises revenue by cost |
| AdminRoutes.TotalBalance | server/src/routes/admin.ts:22 | the sum of the balances: 0 for no users, and with no negative balance at least every single balance (see also TotalBalanceUpdate, CreditRaisesTotal) |
| AdminRoutes.Stats | server/src/routes/admin.ts:18-52 | 403 for a non-admin; else the user count, the total balance, the revenue, and the 10 newest users |
| AdminRoutes.TotalBalanceUpdate | server/src/routes/admin.ts:22 | replacing a user row moves the total balance by exactly that row's change |
| AdminRoutes.CreditRaisesTotal | server/src/routes/admin.ts:22 | an administrator's credit raises the total balance by the amount |
| AdminRoutes.UserList | server/src/routes/admin.ts:55-67 | at most 100 users, newest first |
| AdminRoutes.TransactionList | server/src/routes/admin.ts:70-87 | at most 100 rows, newest first, each with its owner |
| BillingRoutes.Balance | server/src/routes/billing.ts:9-24 | the caller's balance and email, or 401 |
| BillingRoutes.BalanceRoute | server/src/routes/billing.ts:9-24 | behind the API-key check: 401 without a key, 401 for a wrong prefix, 401 when no key matches, 403 for a blocked owner, 402 for an owner without credit; otherwise the balance and email of the first user whose key matches |
| BillingRoutes.WindowOf | server/src/routes/billing.ts:48-56 | the amount spent in a window is never negative |
| BillingRoutes.WindowIgnoresOthers | server/src/routes/billing.ts:48-56 | another user's rows, top-ups and older rows leave the window unchanged |
| BillingRoutes.WindowCountsDebit | server/src/routes/billing.ts:48-56 | a debit in the window adds one request and its size to the amount spent |
| BillingRoutes.WindowMonotone | server/src/routes/billing.ts:80-119 | an earlier start counts at least as many requests |
| BillingRoutes.WindowStrict | server/src/routes/billing.ts:80-119 | a debit of the caller between the two starts makes the earlier window count strictly more requests |
| BillingRoutes.OwnRows | server/src/routes/billing.ts:36-37 | only the caller's rows, and every one of them |
| BillingRoutes.OwnRowsAppend | server/src/routes/billing.ts:36-37 | a new row joins the end of its owner's rows and no one else's, so the caller's rows keep ledger order and multiplicity |
| BillingRoutes.UsageRows | server/src/routes/billing.ts:36-41 | exactly min(limit, own − offset) of the caller's rows (none past the end), newest first from `offset` |
| BillingRoutes.NewestPage | server/src/routes/billing.ts:36-41 | position k of the page is the (offset+k)-th newest row |
| BillingRoutes.UsageHistory | server/src/routes/billing.ts:27-69 | 401, or the page with 50 and 0 as defaults and the month's spending |
| BillingRoutes.MessageCount | server/src/routes/billing.ts:120-124 | at most all messages; with MessageCountAppend and MessageCountIgnoresOthers, exactly the messages in the user's sessions |
| BillingRoutes.MessageCountAppend | server/src/routes/billing.ts:120-124 | messages added to the user's sessions all count |
| BillingRoutes.MessageCountIgnoresOthers | server/src/routes/billing.ts:120-124 | messages added to another user's session or to a missing session do not count |
| BillingRoutes.Stats | server/src/routes/billing.ts:72-147 | 401, or the caller's balance with the three windows |
| BillingRoutes.StatsWindowsNest | server/src/routes/billing.ts:80-119 | today's requests ≤ the week's (the week starts no later than today's midnight); the month's count is at least the day's when the month starts first, and at least the week's only when the month starts no later than the week |
| BillingRoutes.EarlyMonthWeekExceeds | server/src/routes/billing.ts:85-90 | in the first days of a month, when the week starts before the 1st, a debit between the two starts makes the week count more requests than the month |
| BillingRoutes.TopupStub | server/src/routes/billing.ts:150-169 | 401, or the fixed contact notice with the current balance |
| ErrorHandler.NewAppError | server/src/middleware/errorHandler.ts:3-14 | an AppError keeps its message and status and is operational |
| ErrorHandler.ErrorResponse | server/src/middleware/errorHandler.ts:16-54 | AppError: its own status; Prisma: 400; Zod: 400 with details; otherwise 500, showing the message only in development |
| ErrorHandler.AppErrorFirst | server/src/middleware/errorHandler.ts:24-29 | an AppError's answer does not depend on the environment |
| ErrorHandler.UnknownErrorExposure | server/src/middleware/errorHandler.ts:49-53 | outside development the 500 body never depends on the message |
| ErrorHandler.ErrorStatuses | server/src/middleware/errorHandler.ts:16-54 | the only statuses are the AppError's own, 400 and 500; 400 exactly for Prisma and Zod errors |
| ChatRoutes.Round4 | server/src/routes/chat.ts:155-156 | the rounded cost lies within 0.00005 of the cost |
| ChatRoutes.Round4Exact | server/src/routes/chat.ts:155-156 | a cost already at four decimals is kept |
| ChatRoutes.Resolve | server/src/routes/chat.ts:41-74 | the session used is active and belongs to the caller and the page's domain |
| ChatRoutes.ResolveReuse | server/src/routes/chat.ts:44-54 | the sessions stay unchanged exactly when a usable supplied id exists |
| ChatRoutes.ResolveUsesSupplied | server/src/routes/chat.ts:44-54 | a usable supplied session is the one used |
| ChatRoutes.ResolveKeepsSessionsOk | server/src/routes/chat.ts:56-74 | choosing a session keeps at most one active session per user and domain |
| ChatRoutes.ResolveOnlyActive | server/src/routes/chat.ts:56-74 | after a new session, it is the only active one of the user and domain |
| ChatRoutes.SingleActiveUnique | server/src/routes/chat.ts:56-74 | under that invariant, two active sessions of one user and domain are the same |
| ChatRoutes.ResolveIdempotent | server/src/routes/chat.ts:44-74 | resolving again with the returned id reuses it and changes nothing |
| ChatRoutes.HistoryWindow | server/src/routes/chat.ts:77-86 | min(20, n) turns: the session's oldest messages, as role and content |
| ChatRoutes.HistoryWindowFrozen | server/src/routes/chat.ts:77-86 | once a session has 20 messages, later ones never enter the window |
| ChatRoutes.HistoryWindowOtherSession | server/src/routes/chat.ts:77-86 | messages of other sessions do not change the window |
| ChatRoutes.ChatTurnEarlyErrors | server/src/routes/chat.ts:35-38 | 401 without a caller and 400 for an empty message, both changing nothing |
| ChatRoutes.ChatTurnModelFailure | server/src/routes/chat.ts:89-93 | a model failure gives 500 and leaves only the session change |
| ChatRoutes.SettleShortfall | server/src/routes/chat.ts:99-107 | 402 exactly when the balance is below the cost, with no message, debit or row written |
| ChatRoutes.SettlePaid | server/src/routes/chat.ts:109-158 | payment writes the user message and the answer, lowers the balance by the cost (staying ≥ 0), and writes one usage row of −cost; the reply carries the rounded cost and the new balance |
| ChatRoutes.TurnMessagesShape | server/src/routes/chat.ts:110-130 | the user message with the page, then the answer with tokens and cost |
| ChatRoutes.SettleKeepsTablesOk | server/src/routes/chat.ts:99-147 | settling keeps every table invariant |
| ChatRoutes.ChatTurnKeepsTablesOk | server/src/routes/chat.ts:33-167 | the whole turn keeps every table invariant |
| ChatRoutes.ChatTurnKeepsSolvent | server/src/routes/chat.ts:33-167 | the whole turn keeps balances non-negative |
| ChatRoutes.PostMessage | server/src/routes/chat.ts:33-167 | the handler's store calls give the specified reply and tables and keep both invariants |
| ChatRoutes.ChatRoute | server/src/routes/chat.ts:33-167 | behind the API-key check, priced with the PRICE_MULTIPLIER markup (3 when unset): a rejected key is an error with the store unchanged; a passing key runs the whole turn as the first user whose key matches, with that turn's reply and new store |
| ChatRoutes.Items | server/src/routes/chat.ts:218-227 | one item per message, in order |
| ChatRoutes.GetHistory | server/src/routes/chat.ts:194-238 | 401; success exactly when the caller owns the session; 404 otherwise; the items are its messages in order |
| ChatRoutes.DeleteSession | server/src/routes/chat.ts:241-262 | 401 without a caller; otherwise only the caller's row with that id is removed |
| ChatRoutes.DeleteRemovesOnlyOwned | server/src/routes/chat.ts:250-255 | other users' sessions survive a delete |
| Background.StorageKeyShape | background.js:16 | the key is "session_" followed by the domain with dots replaced |
| Background.StorageKeysDistinct | background.js:16 | the three domains use three different keys |
| Background.StorageKeyHasNoDot | background.js:16 | a storage key has no dot |
| Background.SaveThenRead | background.js:15-25 | a saved session id is read back, and other domains' ids are untouched |
| Background.ClearThenRead | background.js:173-180 | after clearing, the domain has no session and other domains keep theirs |
| Background.ChosenSession | background.js:62-63 | a non-empty id given explicitly wins; otherwise the stored one is used |
| Background.FailureText | background.js:47-49 | the error shown is never empty, and is the server's when it sent one |
| Background.Relay | background.js:55-77 | no key gives the fixed error; errors are non-empty; an answer is relayed exactly when there is a key and the server answered |
| Background.RelayedSession | background.js:72-74 | a returned session id is saved under the page's domain; nothing else changes |
| Background.ExtensionStorage.constructor | background.js:9-12 | storage starts empty, without a key |
| Background.ExtensionStorage.SaveSessionId | background.js:22-25 | only that domain's entry is written |
| Background.ExtensionStorage.SendMessage | background.js:55-77 | the reply is `Relay` and the storage becomes `Relayed` |
| Background.ExtensionStorage.Adopt | background.js:71-76 | the answer is passed on and a non-empty session id is saved |
| Background.ExtensionStorage.ChatHistory | background.js:91-103 | [] without a key, without a session or on a failed fetch; otherwise the fetched messages |
| Background.ExtensionStorage.Balance | background.js:80-88 | without a key, the error with balance 0; an error always carries balance 0 |
| Background.ExtensionStorage.ApiKeyText | background.js:157-162 | the stored key, or "" |
| Background.ExtensionStorage.SaveApiKey | background.js:165-170 | only the key changes |
| Background.ExtensionStorage.ClearSession | background.js:173-180 | removes the domain's entry, seller.ozon.ru by default |
| Content.Cap | content.js:270-271 | the first min(n, length) elements |
| Content.TrimEachAt | content.js:217-229 | each cell is trimmed |
| Content.KeptRowsEmpty | content.js:221-229 | rows are dropped exactly when every one is empty |
| Content.KeptIff | content.js:231-233 | a table is kept exactly when it has headers or rows |
| Content.TablesInOrder | content.js:213-234 | each collected table is built from the raw table at its index, in increasing order |
| Content.TablesComplete | content.js:213-234 | every keepable table is collected |
| Content.CollectTables | content.js:213-234 | the loop collects exactly `Tables` |
| Content.CollectTable | content.js:215-229 | the record of one table: its trimmed header cells and its trimmed non-empty body rows, in order (`TableOf`) |
| Content.KeepRow | content.js:222-229 | a body row with cells is added trimmed at the end; an empty one adds nothing |
| Content.MetricKey | content.js:249 | the key is the first min(100, length) characters |
| Content.ScanOrigins | content.js:245-257 | each metric comes from a qualifying text |
| Content.ScanSeen | content.js:250-251 | a key is in `seen` exactly when some text was accepted under it |
| Content.LaterDuplicateDropped | content.js:250-251 | a text sharing an earlier metric's key adds nothing |
| Content.NonMetricDropped | content.js:248 | a text that does not look like a metric adds nothing |
| Content.NewKeyAdded | content.js:248-256 | a qualifying text with a new key adds exactly its metric |
| Content.MetricsSingleSpaced | content.js:252-254 | metric content has no runs of white space |
| Content.CollectMetrics | content.js:237-259 | the loop over the matched texts gives exactly the scanned metrics of the trimmed texts |
| Content.HeadingsNonEmpty | content.js:262-267 | no heading text is empty |
| Content.CollectHeadings | content.js:262-267 | the loop gives exactly `Headings` |
| Content.Snapshot | content.js:201-274 | at most 10 tables and 100 metrics, the leading ones of what was collected, and no charts |
| Content.CollectPageData | content.js:201-274 | the collector gives exactly `Snapshot` |
| Content.CapAfterDedup | content.js:250-271 | a duplicate text never changes the capped metrics |
| Content.CloseAt | content.js:342-344 | the closing `**` found is the first on the line |
| Content.FormatHasNoNewline | content.js:342-344 | formatted text has no newline left |
| Content.FormatPlain | content.js:342-344 | text without `*` only has its newlines replaced by `<br>` |
| Content.FormatStrong | content.js:342-344 | `**x**` on one line becomes `<strong>x</strong>` |
| Content.PanelDomainAgrees | content.js:140 | on ozon pages the panel's domain equals the server's classification |
| Content.HistoryBubbles | content.js:151-165 | one bubble per message, in order, with its role and formatted text |
| Content.ReplyBubble | content.js:309-320 | a reply is shown as an assistant bubble |
| Content.SendShowsBothTurns | content.js:277-333 | blank input or a pending request changes nothing; otherwise the user bubble, then the reply, and loading ends |
| Content.SessionChangesOnlyOnAnswer | content.js:309-320 | an error keeps the session id; an answer sets it |
| Content.ErrorShownMarked | content.js:309-310 | an error is shown after a cross mark |
| Content.ChatPanel.constructor | content.js:9-22 | the panel opens only on ozon pages, with no session, zero balance and no bubbles |
| Content.ChatPanel.SendMessage | content.js:277-333 | the panel and storage change as `AfterSend` and `Relay` say |
| Content.ChatPanel.Deliver | content.js:296-320 | the snapshot is sent, and its reply shown |
| Content.ChatPanel.Forward | content.js:296-304 | the message goes through the service worker with the current session |
| Content.ChatPanel.ShowReply | content.js:309-320 | the view becomes `Replied` |
| Content.ChatPanel.LoadBalance | content.js:117-127 | the balance shown is the service worker's; 0 without a key |
| Content.ChatPanel.LoadHistory | content.js:139-173 | the stored session of the page's domain is adopted and its messages shown |
| Content.ChatPanel.ShowHistory | content.js:151-165 | the history bubbles are appended |
| Content.ChatPanel.ClearChat | content.js:176-198 | the domain's session is removed; the panel shows only the new-chat notice, with no session and no usage |

## Left out

- Concurrency. Every request is modelled as running alone against the store. The chat route makes six writes that are not in one database transaction: deactivating the old sessions, creating a session, the two messages, the balance update and the usage row, four of them after the model call. Interleavings are not modelled. Neither is a crash between writes, for example one after the answer is stored but before the user is charged.
- `try/catch` paths that answer 500 on a thrown database or network error: database calls do not fail in the model. The 500s the code gives for explicit conditions are modelled: a model failure, a missing user row and a missing password hash.
- Floating point. Money is `real`. `toFixed`, `parseFloat`, `parseInt` and NaN are not modelled.
- `ChatRoutes.Round4`: states only that the result lies within 0.00005 of the cost, not the IEEE double that `Math.round(x * 10000) / 10000` gives.
- ClaudeService.Multiplier: the markup is the PRICE_MULTIPLIER value or 3 when it is unset; an unparsable value (NaN) is not modelled.
- AuthMiddleware.FindKeyOwner: `findMany` without `orderBy` returns rows in an order the database chooses; the model scans the users in creation order, so which of two users whose hashes both verify a key is found is not modelled beyond that order.
- AdminRoutes.BlockTurn: `block` is a boolean; a body without `block` (Prisma then leaves `isBlocked` alone and the route still answers success) is not modelled.
- `AuthMiddleware.AuthMiddleware`: any exception inside the handler gives 401. The model covers only the one that can happen here, a token that fails to verify.
- `TelegramRoutes.VerifyTelegramAuth`: not called by any route.
  - The exception branch, which answers false, is not modelled.
  - URL decoding by `URLSearchParams` is not modelled: the parameters are given already split.
  - `localeCompare` is approximated by code-point order.
- Strings are sequences of characters, not UTF-16 code units. Lengths are counted in characters.
- Dates: `now` and the start of today, the week and the month are parameters. The JWT expiry is inside the `sign` parameter.
- Admin `activeToday`, `GET /chat/sessions` and the users' `_count` field: they depend on Prisma's `updatedAt` and relation counts, which are not part of this model.
- zod: only the checks the routes rely on are modelled, namely the email check (a parameter), the non-empty message and the password length. Missing fields and wrong types are not. Neither are the success-message strings of the routes.
- The Anthropic SDK's behaviour is a parameter that returns content blocks and token counts, or fails.
- A Telegram id of 0 is falsy in JavaScript. Ids are modelled as optional text, so this case is merged with "absent".
- Prisma's generated ids are a counter in `Db`.
- `DELETE /chat/session`: whether the messages of a deleted session are removed depends on the schema's referential actions, which are not part of this model. The model removes only the session rows.
- `popup.js`, the Telegram bot, `server/src/index.ts`, the bcrypt wrappers and `generateToken` are not part of this model. Hashing and signing are parameters.
- content.js, page side:
  - the DOM, scrolling, the `innerHTML` assignments, `updateBalanceDisplay` and the usage text format;
  - the transient loading bubble;
  - the `catch` branch of `sendMessage` (322-325);
  - the `catch` paths of `loadBalance` and `loadHistory`;
  - the seller/competitor mode wording.
- chrome's runtime message channel. Panel-to-worker messages are direct calls on `ExtensionStorage`.
- content.js: an empty error string from the worker is shown as a success, as the source's truthiness test does. The worker never sends one.
- Charts: `collectPageData` never fills the chart list. The model keeps it empty.
- `GET_SESSION`, `GET_API_KEY` and `SAVE_API_KEY` are modelled as the simple members `SessionId`, `ApiKeyText` and `SaveApiKey`.
