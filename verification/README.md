# Conversational ledger: a Dafny model

This project models the decision logic of a small personal-finance chat
application. A user types a sentence such as "Gastei 50 no almoço"; an edge
function (`process-transaction`) asks an AI gateway whether the sentence
describes a transaction, inserts the extracted transaction into the
`transactions` table when the model calls its `save_transaction` tool, and
answers with a confirmation or the model's free-text reply. The main page
keeps a chat log, fetches the user's transactions and shows income, expense
and balance totals derived from them. The chat input box decides when a
message is sent.

Every external effect becomes an input: the request body, the gateway key,
what the AI gateway answered, what the insert and the transactions query
returned, and what `supabase.functions.invoke` reported. With those fixed,
each piece is a pure function, and the page is a record-to-record state
transition. Amounts are integer cents; `toFixed(2)` is the integer part, a
dot and two digits of cents.

Modules:

- `Wrappers`: `Option` and `Result`.
- `Text`: JavaScript's `trim` (the white-space set of ECMA-262) and
  `toFixed(2)` on cents, with a parser that reads the formatted text back.
- `Ledger`: transaction rows, filter-and-sum totals per type, a one-pass
  `Summarize`, order independence, and the page's query over a table kept in
  insertion order.
- `ProcessTransaction`: the edge function's handler, `Handle`, from request,
  environment, AI outcome and insert outcome to the response, whether the
  gateway was called, and the insert issued.
- `Page`: the main page's state, `FetchTransactions` and
  `HandleSendMessage`, and conversations of several sends.
- `ChatInput`: the send gate, the Enter key and the Send button.
- `EndToEnd`: how the pieces meet, through `supabase.functions.invoke`.

Behaviour worth noting:

- The tool arguments are not validated. Whatever the model returns is
  inserted; any `type` other than "expense" gets the income template.
- Error answers carry only `error`; they have no `isTransaction: false`.
- The confirmation is composed after the insert. If `amount` is not a number,
  `toFixed` throws after the row was saved, and the answer is a 500
  (`SavedButReportedAsFailure`). So `isTransaction: true` means "inserted and
  the amount was a number" (`TransactionIffInserted`).
- In that case `handleSendMessage` does not re-fetch, and the user sees the
  apology. The realtime subscription (Index.tsx:70-84) still re-fetches on
  any change to the user's rows, so the saved row reaches the list and the
  totals anyway. The subscription is outside the model (see below).
- The confirmation texts are the Portuguese templates of the code.
- The page passes its text to the handler unchanged. The handler does not
  trim; it rejects only empty strings (index.ts:17), so it would accept
  whitespace-only text. Only the chat input's `trim` keeps such text out.

The `supabase.functions.invoke` behaviour used in `EndToEnd` is an assumed
model of the client library: a status outside 2xx becomes an error, and a
2xx answer hands back its body.

## Model

| member | source | states |
|---|---|---|
| `Text.Trim` | src/components/ChatInput.tsx:15-16 | the trimmed text is a slice of the input with only white space around it; it neither starts nor ends with white space; it is empty exactly when the input holds no visible character |
| `Text.TrimIdempotent` | src/components/ChatInput.tsx:16 | trimming twice is trimming once |
| `Text.FormatCents` | supabase/functions/process-transaction/index.ts:162-163 | `toFixed(2)` text: a minus sign exactly for negative amounts, an integer part of digits with no leading zero unless it is "0", a dot, then exactly two digits |
| `Text.FormatCentsNoSpace` | supabase/functions/process-transaction/index.ts:162-163 | the formatted amount holds no space, so in a confirmation it ends at the following " em " |
| `Text.FormatCentsRoundTrip` | supabase/functions/process-transaction/index.ts:162-163 | the two-decimal text parses back to the same amount in cents |
| `Text.FormatCentsInjective` | supabase/functions/process-transaction/index.ts:162-163 | different amounts are shown as different texts |
| `Ledger.OfKind` | src/pages/Index.tsx:112-113 | the filter is no longer than its input, and a row is in the result exactly when it is in the input and has the given type |
| `Ledger.OfKindCounts` | src/pages/Index.tsx:112-113 | each row of the given type is kept as many times as it occurs in the input; no row of another type is kept |
| `Ledger.OfKindSingle` | src/pages/Index.tsx:112-113 | a single row is kept exactly when its type matches |
| `Ledger.OfKindAppend` | src/pages/Index.tsx:112-113 | filtering a concatenation is concatenating the filtered parts, so the filter keeps the input's order |
| `Ledger.TotalAppend` | src/pages/Index.tsx:112-113 | the total of a concatenation is the sum of the totals |
| `Ledger.TotalSnoc` | src/pages/Index.tsx:112-113 | one more row changes a type's total by its amount when the type matches, else not at all |
| `Ledger.OtherKindsIgnored` | src/pages/Index.tsx:112-113 | a row whose type is neither "income" nor "expense" counts toward neither total |
| `Ledger.EmptyTotals` | src/pages/Index.tsx:112-113 | no rows give both totals zero |
| `Ledger.TotalPermutation` | src/pages/Index.tsx:112-113 | the totals do not depend on the order of the rows |
| `Ledger.TotalNonNegative` | src/pages/Index.tsx:112-113 | with non-negative amounts the totals are non-negative |
| `Ledger.Summarize` | src/pages/Index.tsx:112-116 | one pass over the rows gives the same income and expense as filter-and-sum |
| `Ledger.Select` | src/pages/Index.tsx:99-103 | a row is listed exactly when it is in the table and belongs to the user |
| `Ledger.SelectCounts` | src/pages/Index.tsx:99-103 | each of the user's rows is listed as many times as it is stored; no other user's row is listed |
| `Ledger.SelectNewestFirst` | src/pages/Index.tsx:99-103 | over a table in insertion order the listing is ordered by creation time, newest first |
| `Ledger.SelectAfterInsert` | src/pages/Index.tsx:99-103 | after an insert for the user the new row heads the user's listing once; other users' listings are unchanged |
| `Ledger.TotalsAfterInsert` | src/pages/Index.tsx:99-116 | re-fetching after an insert raises the matching total by exactly the new amount |
| `ProcessTransaction.UpstreamFailure` | supabase/functions/process-transaction/index.ts:101-120 | gateway 429 gives 429, 402 gives 402, any other failure status gives 500 "Erro ao processar com IA"; all are error bodies |
| `ProcessTransaction.ReplyText` | supabase/functions/process-transaction/index.ts:176 | the free-text answer is never empty |
| `ProcessTransaction.Confirmation` | supabase/functions/process-transaction/index.ts:161-163 | composing the confirmation throws exactly when the amount is not a number |
| `ProcessTransaction.SaveFirstCall` | supabase/functions/process-transaction/index.ts:128-172 | an insert is issued exactly when the tool arguments parse, and it belongs to the requesting user |
| `ProcessTransaction.AfterAi` | supabase/functions/process-transaction/index.ts:101-184 | every path after the gateway call records that the gateway was called |
| `ProcessTransaction.Handle` | supabase/functions/process-transaction/index.ts:14-192 | the status is one of 200, 400, 402, 429, 500; 200 exactly for reply bodies; the gateway is called exactly when both fields and the key are non-empty; any insert comes after the gateway call and carries the requesting user |
| `ProcessTransaction.MissingInputRejected` | supabase/functions/process-transaction/index.ts:17-22 | a missing or empty message or user id gives 400 with the fixed error, no gateway call and no insert |
| `ProcessTransaction.BadRequestIffMissingInput` | supabase/functions/process-transaction/index.ts:17-22 | 400 is answered exactly for a missing or empty field |
| `ProcessTransaction.MissingApiKeyFails` | supabase/functions/process-transaction/index.ts:24-27 | without a gateway key the answer is 500 with the key error, and the gateway is not called |
| `ProcessTransaction.UpstreamStatusMapping` | supabase/functions/process-transaction/index.ts:101-120 | a failure status from the gateway maps to 429, 402 or 500 with its message, and nothing is inserted |
| `ProcessTransaction.ToolCallInsertsOnce` | supabase/functions/process-transaction/index.ts:128-149 | with a tool call, the first call alone is used: one insert with the user's id and the arguments copied unchanged |
| `ProcessTransaction.InsertFailureReported` | supabase/functions/process-transaction/index.ts:151-157 | a failed insert gives 500 "Erro ao salvar transação" with no isTransaction field |
| `ProcessTransaction.InsertSuccessConfirmed` | supabase/functions/process-transaction/index.ts:159-172 | a saved numeric amount gives 200, isTransaction true, the stored row, and the expense template for "expense" or the income template for any other type |
| `ProcessTransaction.SavedButReportedAsFailure` | supabase/functions/process-transaction/index.ts:139-191 | a non-numeric amount is inserted and then answered 500 with the thrown error's message |
| `ProcessTransaction.FreeTextReply` | supabase/functions/process-transaction/index.ts:175-184 | without a tool call there is no insert and the answer is 200, isTransaction false, with the model's text or the fallback when it is missing or empty |
| `ProcessTransaction.TransactionIffInserted` | supabase/functions/process-transaction/index.ts:139-184 | isTransaction true is answered exactly when an insert was issued, it succeeded, and the amount was a number |
| `ProcessTransaction.ThrownErrorsAre500` | supabase/functions/process-transaction/index.ts:186-191 | an unreadable request body, a failed gateway call, an unparsable gateway body or unparsable tool arguments give 500 with the error's message |
| `ProcessTransaction.InsertOnlyAfterToolCall` | supabase/functions/process-transaction/index.ts:125-149 | an insert is issued exactly after an ok gateway reply whose first choice calls the tool with parsable arguments |
| `ProcessTransaction.ConfirmationDeterminesAmount` | supabase/functions/process-transaction/index.ts:161-163 | two confirmations that are the same text used the same template and report the same amount, whatever the categories and descriptions on either side |
| `ProcessTransaction.TemplatesDistinct` | supabase/functions/process-transaction/index.ts:161-163 | an expense confirmation never equals an income confirmation, for any amounts, categories and descriptions |
| `Page.Initial` | src/pages/Index.tsx:33-37 | the page starts for the given user with an empty log, an empty transaction list, both totals 0, and not loading |
| `Page.Balance` | src/pages/Index.tsx:207 | in a consistent state the balance shown is the income total minus the expense total of the listed rows |
| `Page.FetchTransactions` | src/pages/Index.tsx:96-117 | with no user or a query error nothing changes; otherwise the list becomes the returned rows (none for null) and the totals agree with it; the log and loading flag are untouched |
| `Page.Reply` | src/pages/Index.tsx:138-158 | a reply bubble carries the answer's message and flag, or the fixed apology with no flag |
| `Page.BeginSend` | src/pages/Index.tsx:122-129 | the user's bubble is appended and loading starts; the ledger is untouched |
| `Page.FinishSend` | src/pages/Index.tsx:138-162 | one reply bubble is appended and loading ends |
| `Page.HandleSendMessage` | src/pages/Index.tsx:119-163 | with no user nothing changes; otherwise the log grows by the user's text and one reply, loading ends false, the ledger changes only after a confirmation, and totals stay consistent |
| `Page.ConfirmationRefetches` | src/pages/Index.tsx:147-149 | after a confirmation the ledger is what a fetch makes of it |
| `Page.Converse` | src/pages/Index.tsx:119-163 | a run of sends keeps the user and ends not loading |
| `Page.Transcript` | src/pages/Index.tsx:122-159 | a run of sends adds two bubbles per send: its text, then its reply |
| `Page.ConverseAppendOnly` | src/pages/Index.tsx:122-159 | over any run of sends the log is the old log followed by each send's text and reply, in order |
| `Page.ConverseConsistent` | src/pages/Index.tsx:110-116 | over any run of sends the totals stay those of the listed rows |
| `Page.BalanceMayBeNegative` | src/pages/Index.tsx:204-208 | a single expense of positive amount gives a negative balance |
| `ChatInput.HandleSend` | src/components/ChatInput.tsx:14-19 | sends exactly when enabled and the buffer has a visible character; sends the buffer without surrounding white space and clears it; otherwise keeps the buffer |
| `ChatInput.ButtonMatchesGuard` | src/components/ChatInput.tsx:38-40 | the Send button is enabled exactly when a click would send |
| `ChatInput.HandleKeyDown` | src/components/ChatInput.tsx:21-26 | Enter without Shift is taken over and attempts a send; every other key sends nothing and keeps the buffer |
| `ChatInput.NoDoubleSend` | src/components/ChatInput.tsx:15-18 | right after a send a second attempt sends nothing |
| `ChatInput.SentTextIsTrimmed` | src/components/ChatInput.tsx:16 | the text sent has no surrounding white space left to trim |
| `EndToEnd.InvokeOf` | src/pages/Index.tsx:132-136 | the page receives data exactly for a 2xx reply body, with its message and flag |
| `EndToEnd.SentTextPassesValidation` | supabase/functions/process-transaction/index.ts:17-22 | text the chat input lets through never draws the 400 answer when the user id is non-empty |
| `EndToEnd.NoSendWhileLoading` | src/pages/Index.tsx:252 | while a send is in flight the input sends nothing |
| `EndToEnd.RefetchIffSaved` | src/pages/Index.tsx:147-149 | `handleSendMessage` re-fetches exactly when the handler's insert succeeded with a numeric amount |
| `EndToEnd.ErrorAnswersShowApology` | src/pages/Index.tsx:150-159 | every error answer of the handler shows the apology without a flag and leaves the ledger as it was within the send |

Some definitions have no row of their own. Their meaning is given by the
lemmas and contracts that use them:

- `Ledger.SumAmounts`, `Ledger.Total`, `Ledger.TotalIncome` and
  `Ledger.TotalExpense` (Index.tsx:112-113): by `Ledger.TotalAppend`,
  `Ledger.TotalSnoc`, `Ledger.EmptyTotals`, `Ledger.TotalPermutation` and
  `Ledger.Summarize`.
- `ChatInput.ButtonDisabled` (ChatInput.tsx:40): by
  `ChatInput.ButtonMatchesGuard`.
- `ProcessTransaction.FirstMessage` and `ProcessTransaction.FirstToolCall`
  (index.ts:125-130): by `ProcessTransaction.ToolCallInsertsOnce`,
  `ProcessTransaction.FreeTextReply` and
  `ProcessTransaction.InsertOnlyAfterToolCall`.
- `ProcessTransaction.ExpenseConfirmation` and
  `ProcessTransaction.IncomeConfirmation` (index.ts:162-164): by
  `ProcessTransaction.InsertSuccessConfirmed`,
  `ProcessTransaction.ConfirmationDeterminesAmount` and
  `ProcessTransaction.TemplatesDistinct`.
- `ProcessTransaction.CaughtMessage` (index.ts:189): by
  `ProcessTransaction.ThrownErrorsAre500` and
  `ProcessTransaction.SavedButReportedAsFailure`.
- `ProcessTransaction.Truthy` (index.ts:17, 25, 176): by
  `ProcessTransaction.BadRequestIffMissingInput`,
  `ProcessTransaction.MissingApiKeyFails` and
  `ProcessTransaction.FreeTextReply`.
- `ProcessTransaction.IsOk` (index.ts:101): by
  `ProcessTransaction.UpstreamStatusMapping` and
  `ProcessTransaction.InsertOnlyAfterToolCall`.
- `Page.Refetches` (Index.tsx:147-149): by `Page.ConfirmationRefetches`,
  `Page.HandleSendMessage` and `EndToEnd.RefetchIffSaved`.
- `EndToEnd.RequestOf` (Index.tsx:132-134): by
  `EndToEnd.SentTextPassesValidation`, `EndToEnd.RefetchIffSaved` and
  `EndToEnd.ErrorAnswersShowApology`.

## Left out

- The OPTIONS preflight, CORS headers, JSON serialisation and logging (index.ts:4-12 and the `console` calls): transport, not logic.
- The gateway request itself: prompt text, model name and tool schema (index.ts:32-99). The model's behaviour cannot be stated; its reply is the `AiOutcome` input.
- Building the store client from `SUPABASE_URL` and the service-role key (index.ts:135-137) is assumed to succeed; the insert's result is the `InsertOutcome` input.
- Reading the error text of a failed gateway response (index.ts:114) is assumed not to throw.
- `message` and `userId` are strings or absent. Other JSON values and their JavaScript truthiness are not modelled. Neither are non-string `type`, `category` or `description` arguments, which the template would print as "undefined" and the like.
- Floating point: amounts are integer cents. `toFixed` rounding of fractional cents, its exponential form at 1e21 and above, and `Number(...)` conversion in the totals are not modelled.
- The auth listeners, redirects and the realtime channel (Index.tsx:41-90). A realtime notification is one more `FetchTransactions` call.
- The toast, `Date.now()` message ids and scrolling (Index.tsx:92-94, 123, 139, 152, 155).
- The re-fetch after a confirmation (Index.tsx:148) is not awaited. The model completes it within the send.
- Overlapping sends. Sends are sequential; `EndToEnd.NoSendWhileLoading` shows the input is disabled while loading.
- The text area's `onChange` (ChatInput.tsx:32): it sets the buffer to any string, which every member already takes as input.
- `Ledger.Select` models the query's ordering only for a table kept in insertion order with non-decreasing `created_at`. It does not model how the store breaks ties.
- The presentation components (TransactionList, FinanceSummary, ChatMessage), locale currency and date formatting, and the sign-in page.
