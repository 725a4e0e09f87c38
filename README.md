# Credit-gated ad-copy generation and campaign tables, in Dafny

This project models the server-side operations of a marketing-campaign web
app. Users describe a product, ask a completion provider for ad copy, and keep
campaign drafts. Two operation files make up the core.

- `app/src/demo-ai-app/operations.ts` holds `generateGptResponse`. It
  rejects a request without a user with 401. It then checks that the user is
  entitled: credits left, or a subscription status other than `deleted` and
  `past_due`. It debits one credit and calls the provider. It parses the
  tool-call arguments and returns them. Any error in that block reaches a
  catch block, which refunds one credit when the user's snapshot has no
  subscription status and the error's status code is not 402. The catch block
  then rethrows with the original status code (500 if there is none) and the
  original message ("Internal server error" if there is none). The same file
  holds campaign create/update/delete/list. Update and delete there select
  the row by `id` alone.
- `app/src/campaign/operations.ts` holds a second version of the campaign
  operations. Update and delete there match on `{id, userId}`. The file also
  holds the same operations for GptResponse rows, a skip/take page of users,
  two user-profile updates and a placeholder `generateGptResponse`.

Modules, one per concern:

- `Errors` (errors.dfy): `Option`, thrown errors with an optional status
  code, `Result`, and JavaScript truthiness of an optional string.
- `Entities` (entities.dfy): ids, the owned `Row<D>`, campaign, GptResponse
  and ad-copy data, JSON values, and the two patches.
- `Tables` (tables.dfy): the class `Table<D>`, a database table of
  user-owned rows held as a `map` plus a clock. It has insert, update and
  delete filtered by id and, optionally, by owner. Its `ListOwned` gives the
  owner's rows newest first. The clock hands out both ids and `createdAt`
  stamps, so they increase together.
- `Users` (users.dfy): the class `UserTable`, with credit increments,
  profile patches and skip/take pages.
- `Generation` (generation.dfy): `generateGptResponse` of the demo-ai-app
  file. The pure function `Generate` states its response and its net effect
  on the stored user's credits. The method `GenerateGptResponse` does the same
  step by step on a `UserTable` and is proved equal to `Generate`. The lemmas
  state the credit outcome of every path.
- `DemoAiOperations` (demo_ai_operations.dfy) and `CampaignOperations`
  (campaign_operations.dfy): the two operation files, kept as separate
  variants because the code that picks one is not part of this model.

Collaborators that cannot be seen become parameters:

- The provider's answer is `reply: ProviderReply`: a completion with
  optional tool-call arguments, or a provider failure that may carry a
  status code. The catch block reads the error's `statusCode` property.
  The provider's client library is not part of this model. If its errors
  report their HTTP status under another name, as `status` for example,
  every real provider failure reaches the catch block with no `statusCode`.
  It is then rethrown as 500, and a caller without a subscription status is
  refunded. A provider's 4xx status is not passed on in that case. The
  parameter keeps the general case.
- `JSON.parse` is `parse: string -> ParseOutcome`.
- Whether `OPENAI_API_KEY` was set is `apiKeySet`.
- `context.user` is an `Option`: a snapshot of the user's row for
  generation, the user's id for the table operations.

Three consequences of the code that a reader might not expect, each kept
in the model:

- A subscriber in good standing is debited like anyone else, and a failed
  call is not refunded (`ValidSubscriberFailureCharged`): the refund guard at
  app/src/demo-ai-app/operations.ts:135 tests only whether a subscription
  status is set.
- The demo-ai-app update and delete select the row by `id` alone
  (app/src/demo-ai-app/operations.ts:180 and :194), so they reach a row of
  any owner. The campaign file's versions add the owner to the `where`
  clause (app/src/campaign/operations.ts:56 and :64).
- A missing API key is thrown inside the try block, so the catch block runs
  its refund for a caller without a subscription status, although nothing
  was debited (`MissingKeyRefundsWithoutDebit`). The comment at
  app/src/demo-ai-app/operations.ts:134 reads as if the refund only undoes
  a debit.

## Model

| member | source | states |
|---|---|---|
| `Generation.GenerateGptResponse` | app/src/demo-ai-app/operations.ts:32-150 | the response equals `Generate`'s; the stored user's credits change by `Generate`'s net delta and no other row or column changes; with no user, nothing changes |
| `Generation.UnauthenticatedRejected` | app/src/demo-ai-app/operations.ts:36-38 | without a user the response is 401 and credits do not change |
| `Generation.DebitsIffEntitled` | app/src/demo-ai-app/operations.ts:47-65 | with the key set, the debit happens exactly when `credits > 0` or the status is non-empty and is neither 'deleted' nor 'past_due' |
| `Generation.NotEntitledRejectedFree` | app/src/demo-ai-app/operations.ts:47-148 | an unentitled caller gets 402 "User has not paid or is out of credits" and a net credit change of 0 |
| `Generation.SuccessCostsOneCredit` | app/src/demo-ai-app/operations.ts:57-132 | an entitled caller whose non-empty tool-call arguments parse gets the parsed value unchanged and pays exactly one credit |
| `Generation.SuccessOnlyFromParsedArguments` | app/src/demo-ai-app/operations.ts:40-132 | every success has the key set, an entitled caller and parsed tool-call arguments, returns their parse, and costs exactly one credit |
| `Generation.MissingArgumentsAreBadResponse` | app/src/demo-ai-app/operations.ts:126-130 | absent or empty tool-call arguments reject with 500 "Bad response from OpenAI" |
| `Generation.UnsubscribedFailureRefunded` | app/src/demo-ai-app/operations.ts:126-144 | an entitled caller with no subscription status whose call fails after the debit nets 0, unless the thrown error carries status 402, which nets -1 |
| `Generation.LapsedSubscriberNotRefunded` | app/src/demo-ai-app/operations.ts:47-144 | a 'past_due' or 'deleted' subscriber with credits whose call fails nets -1: the refund guard tests only that a status is set |
| `Generation.ValidSubscriberFailureCharged` | app/src/demo-ai-app/operations.ts:47-144 | a subscriber in good standing whose call fails nets -1 |
| `Generation.MissingKeyRefundsWithoutDebit` | app/src/demo-ai-app/operations.ts:13-144 | without the API key the response is 500 "OpenAI API key is not set", and a caller with no subscription status gains one credit that was never debited |
| `Generation.CreditDeltaCases` | app/src/demo-ai-app/operations.ts:40-148 | the net change is -1, 0 or 1; +1 exactly on the missing-key path without a status; -1 exactly when an entitled caller succeeds, or fails with a status set or with status 402 |
| `Generation.RethrowKeepsOriginal` | app/src/demo-ai-app/operations.ts:146-148 | the rethrown error keeps a non-zero status code and a non-empty message, and otherwise gets 500 and "Internal server error" |
| `Generation.AuthenticatedErrorsAreComplete` | app/src/demo-ai-app/operations.ts:133-148 | every rejection an authenticated caller sees has a non-zero status code and a non-empty message |
| `Users.UserTable.IncrementCredits` | app/src/demo-ai-app/operations.ts:57-64 | the named user's credits change by the amount; every other user and column is unchanged |
| `DemoAiOperations.CreateCampaign` | app/src/demo-ai-app/operations.ts:152-169 | 401 and no change without a user; otherwise a fresh row with the given strings, status draft and the caller as owner is added, and it heads the caller's listing |
| `DemoAiOperations.UpdateCampaign` | app/src/demo-ai-app/operations.ts:171-183 | 401 and no change without a user; otherwise the row with that id is patched whoever owns it, every other row is unchanged, and an unknown id rejects with no change |
| `DemoAiOperations.DeleteCampaign` | app/src/demo-ai-app/operations.ts:185-196 | 401 and no change without a user; otherwise the row with that id is removed whoever owns it and its owner's listing no longer shows it; an unknown id rejects with no change |
| `DemoAiOperations.GetAllCampaignsByUser` | app/src/demo-ai-app/operations.ts:200-220 | 401 without a user; otherwise exactly the caller's rows, newest `createdAt` first |
| `Tables.Table.ListOwned` | app/src/demo-ai-app/operations.ts:207-219 | the result holds every row the owner owns, each once, and nothing else, in strictly decreasing `createdAt` |
| `Tables.NewestBelowMembers` | app/src/demo-ai-app/operations.ts:207-212 | the listing below a bound holds exactly the owner's rows below it |
| `Tables.NewestBelowSorted` | app/src/demo-ai-app/operations.ts:216-218 | the listing is in strictly decreasing `createdAt` |
| `Tables.NewestBelowInsertAbove` | app/src/campaign/operations.ts:13-44 | a row stored at or above the bound leaves the listing below it unchanged, which is why a new row heads its owner's listing |
| `Tables.Table.constructor` | app/src/campaign/operations.ts:7-22 | a new table is valid, holds no rows, and its clock starts at 0 |
| `Tables.Table.Insert` | app/src/campaign/operations.ts:13-21 | a row with a fresh id, the given owner and data, and a later `createdAt` than every stored row, is added; nothing else changes; it heads its owner's listing |
| `Tables.Table.UpdateWhere` | app/src/campaign/operations.ts:55-58 | the matching row's data is patched and nothing else changes; no match rejects with no change |
| `Tables.Table.DeleteWhere` | app/src/campaign/operations.ts:63-65 | the matching row is removed and returned and nothing else changes; no match rejects with no change |
| `CampaignOperations.CreateCampaign` | app/src/campaign/operations.ts:7-22 | without a user, a TypeError and no change; otherwise a fresh row with the given strings, status draft whatever was sent, owned by the caller, heading the caller's listing |
| `CampaignOperations.CreateThenListOnEmptyStore` | app/src/campaign/operations.ts:7-45 | on an empty store, the caller's listing after one create is exactly the created row, owned by the caller, a draft with the strings sent |
| `CampaignOperations.GetAllCampaignsByUser` | app/src/campaign/operations.ts:24-45 | "User must be authenticated" without a user; otherwise exactly the caller's rows, newest `createdAt` first |
| `CampaignOperations.UpdateCampaign` | app/src/campaign/operations.ts:47-59 | only the row matching both id and caller is patched; another owner's row is never touched; no match rejects with no change |
| `CampaignOperations.DeleteCampaign` | app/src/campaign/operations.ts:61-66 | only the row matching both id and caller is removed; other owners' rows survive; the caller's listing no longer shows the id |
| `CampaignOperations.GetGptResponses` | app/src/campaign/operations.ts:70-75 | exactly the caller's GptResponse rows, each once; the source asks for no order |
| `CampaignOperations.CreateGptResponse` | app/src/campaign/operations.ts:77-88 | a fresh row with content "default content" and the given response, owned by the caller; nothing else changes |
| `CampaignOperations.UpdateGptResponse` | app/src/campaign/operations.ts:90-99 | only the row matching both id and caller gets the new response; no match rejects with no change |
| `CampaignOperations.DeleteGptResponse` | app/src/campaign/operations.ts:101-106 | only the row matching both id and caller is removed; no match rejects with no change |
| `Users.Window` | app/src/campaign/operations.ts:112-115 | skip-then-take has length `min(first, max(0, n - skip))` and element `i` is element `skip + i` of the input |
| `Users.WindowsConcatenate` | app/src/campaign/operations.ts:112-115 | two consecutive pages together are the page as long as both |
| `Users.UserTable.constructor` | app/src/campaign/operations.ts:108-116 | a table built from well-formed rows and a read order is valid and holds exactly those rows in that order |
| `Users.UserTable.Page` | app/src/campaign/operations.ts:112-115 | the page has length `min(first, max(0, n - skip))` and holds the stored users from position `skip` on, in table order |
| `CampaignOperations.GetPaginatedUsers` | app/src/campaign/operations.ts:108-116 | the same page, with no check of the caller |
| `Users.UserTable.UpdateProfile` | app/src/campaign/operations.ts:150-153 | the named user's name and email are patched and nothing else changes; an unknown id rejects with no change |
| `CampaignOperations.UpdateCurrentUser` | app/src/campaign/operations.ts:145-154 | without a user, a TypeError and no change; otherwise only the caller's row is patched |
| `CampaignOperations.UpdateUserById` | app/src/campaign/operations.ts:156-165 | the row named by the argument is patched, whoever calls, with no authentication or ownership check |
| `CampaignOperations.GenerateGptResponse` | app/src/campaign/operations.ts:194-211 | exactly one ad copy with two variations and call-to-action "Learn More"; it takes no table, so it cannot touch credits |

## Left out

- The request to the completion provider: model name, prompts, tool schema and temperature 0.7. The provider is a foreign network call, and its answer is the `reply` parameter.
- `JSON.parse`: it is the `parse` parameter, which yields a JSON value of any shape (`Json`: null, booleans, numbers, strings, arrays, objects) or a SyntaxError. The source does not check that the value has the declared ad-copy shape, and neither does the model: the operation returns the value as parsed. Numbers are `real`, so IEEE double rounding of large or long literals is not modelled.
- The race between the entitlement check and the debit across concurrent requests: the model handles one request at a time.
- `console.error` logging in the catch block.
- The environment lookup: it is the `apiKeySet` flag.
- The range check of the web framework's HttpError constructor on the rethrown status code: that code is not part of this model, and the model rethrows whatever status it computed.
- Generation.GenerateGptResponse: requires the caller's user row to exist in the table, so the debit and the refund cannot fail. The framework loads `context.user` from that row.
- Prisma's query engine: tables are maps. Ids and `createdAt` come from one logical clock, so two rows never share a stamp and the listing is strictly newest first. In the source `createdAt` is the current time, two rows can share it, and the order of such rows in a listing is unspecified. `updatedAt` is not modelled. The exact wording of the database client's "record not found" errors is simplified; only the absence of a status code matters to callers. The same holds for `NoUserTypeError`, the TypeError that reading `user.id` throws when the context has no user. Its message depends on the JavaScript engine and on whether the framework passes the missing user as `undefined` or `null` ("...of null (reading 'id')"). The model fixes the `undefined` wording, and no caller depends on it.
- The `adCopies` relation included in campaign listings, and what deleting a campaign does to its ad-copy rows: no modelled operation writes AdCopy rows.
- Foreign keys and unique constraints: the connected user's existence and a unique email are not modelled.
- DemoAiOperations.UpdateCampaign: the patch covers product name, target audience, tone and status. The declared `Partial<Campaign>` also admits other columns, such as the owner and `createdAt`; those are not modelled.
- Arguments beyond the declared types: the operations pass `args` to the database as they arrive, so a caller could send other columns (such as `credits` to updateCurrentUser). The model accepts only the declared fields.
- Users.UserTable.Page: the source's `findMany` asks for no order, and the model reads the users in one fixed `order` that no update changes, so `WindowsConcatenate` holds of the model. In the source the database may return unordered rows differently from one request to the next, so pages read in separate requests may overlap or skip users.
- CampaignOperations.GetPaginatedUsers: `first` and `skip` are natural numbers. A negative `take` (which reads backwards in Prisma) and a negative `skip` are not modelled.
- `getCustomerPortalUrl`, `getAllFilesByUser`, `getDownloadFileSignedURL`, `createFile`, `generateCheckoutSession`: payment and file-storage stubs and single-field lookups, with nothing to state beyond "returns a field".
- The React pages and the static landing-page and navigation content: presentation and configuration only.
