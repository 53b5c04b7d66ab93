# Order-system Telegram bot: conversational core in Dafny

This project models the conversational core of a Telegram bot that
lets staff query an order system, and lets admins create orders, expenses
and transfers in it, by talking in natural language. A language model turns
each message into an `{ action, data, message }` reply. The bot keeps a
short per-room conversation state. It routes the reply to the order,
expense or transfer handler, and those call the order system's HTTP API.

The modules follow the source files:

- `CurrencyKnowledge` (in `currency.dfy`): pure functions: the currency table, "stronger", the three-pattern pair parser, `calculateAmounts`.
- `ConversationState` (in `conversation.dfy`): class `ConversationStore` over a `map` of rooms, each method tied to a store function by its contract.
- `MessageHandler` (in `messagehandler.dfy`): the per-turn state machine as methods over the store, plus the pure helpers.
- `HandlerCommon` (in `handlers.dfy`): what the three handlers share: the catch, the id check, the missing-field filter, the 20-row listing.
- `OrderHandler`, `ExpenseHandler`, `TransferHandler` (in `orders.dfy`, `expenses.dfy`, `transfers.dfy`): the handlers.
- `UserMapping` (in `usermapping.dfy`): identity and admin lookups over tables given as parameters.
- `NotificationPusher` (in `notifications.dfy`): `formatNotification`, and a class for the pusher's state and its sent messages.
- `AiService` (in `aiservice.dfy`): the `messages` list sent to the language model, and the error re-wrapping.
- `OrderSystemApi` (in `orderapi.dfy`): the record-system calls as a `Request` datatype; their answers are parameters.
- `Js` (in `js.dfy`): the JavaScript value semantics the source relies on.

`Js` covers truthiness, `String(x)`, `parseInt`, `parseFloat`, ASCII case
mapping, `trim`, `includes` and `join`.

Everything outside the program is an input:

- The language model's answer, or the error it throws, is the parameter `completion`.
- Each record-system answer, or thrown error, is a field of `answers`.
- The clock is the parameter `now`.
- `JSON.stringify` of the collected data is `dataJson`.
- Date rendering is the parameter `fmt`.
- Each handler method also returns the record-system call it makes, if any, as `call`. This is how the contracts say that no call is made.

A JSON object is a `map<string, Value>`. `Value` is `undefined`, `null`, a
boolean, a number (a `real`) or a string. An absent key reads as
`undefined`.

## Model

| member | source | states |
|---|---|---|
| CurrencyKnowledge.GetCurrencyInfo | src/services/currencyKnowledge.js:23-30 | every code, known or not, is worth a positive number of dollars |
| CurrencyKnowledge.GetCurrencyInfoIgnoresCase | src/services/currencyKnowledge.js:23-30 | the lookup gives the same entry for a code, its upper-case and its lower-case form |
| CurrencyKnowledge.UnknownCurrencyInfo | src/services/currencyKnowledge.js:25-29 | a code missing from the table is worth 1.0 and uses its upper-cased self as name and symbol |
| CurrencyKnowledge.IsStrongerIsStrictOrder | src/services/currencyKnowledge.js:35-39 | "stronger" is irreflexive, asymmetric and transitive |
| CurrencyKnowledge.UnknownCodesAreEqualStrength | src/services/currencyKnowledge.js:35-39 | of two codes missing from the table, neither is stronger |
| CurrencyKnowledge.IsStronger | src/services/currencyKnowledge.js:35-39 | one currency is stronger than another only when at least one of the two is in the table |
| CurrencyKnowledge.CodeAt | src/services/currencyKnowledge.js:51 | a greedy `[A-Z]{3,4}` group captures three or four upper-case letters |
| CurrencyKnowledge.SpacesEnd | src/services/currencyKnowledge.js:60 | a `\s` run ends at the first non-space character or at the end |
| CurrencyKnowledge.LineEnd | src/services/currencyKnowledge.js:60 | `.*` reaches up to the first line terminator |
| CurrencyKnowledge.SellAt | src/services/currencyKnowledge.js:60 | `SELL(?:ING)?\s+` followed by a code captures a code |
| CurrencyKnowledge.LastSell | src/services/currencyKnowledge.js:60 | a greedy `.*` before the sell part captures a code, and the last reachable one wins |
| CurrencyKnowledge.MatchAt | src/services/currencyKnowledge.js:51-75 | whatever a pattern captures at a position is two currency codes |
| CurrencyKnowledge.SlashAt | src/services/currencyKnowledge.js:51 | the slash-or-dash pattern captures two codes |
| CurrencyKnowledge.BuySellAt | src/services/currencyKnowledge.js:60 | the buy/sell pattern captures two codes |
| CurrencyKnowledge.TwoCodesAt | src/services/currencyKnowledge.js:69 | the two-bare-codes pattern, with its word boundaries, captures two codes |
| CurrencyKnowledge.SearchNoneIffNoMatch | src/services/currencyKnowledge.js:51 | the position-by-position search finds nothing exactly when no position in range matches |
| CurrencyKnowledge.SearchFindsFirst | src/services/currencyKnowledge.js:51 | a search result is the match at the first matching position |
| CurrencyKnowledge.FirstMatch | src/services/currencyKnowledge.js:51-52 | `String.prototype.match` on an unanchored pattern captures two codes |
| CurrencyKnowledge.FirstMatchNoneIffNowhere | src/services/currencyKnowledge.js:51-52 | `match` returns null exactly when the pattern matches at no position |
| CurrencyKnowledge.FirstMatchIsLeftmost | src/services/currencyKnowledge.js:51-52 | `match` returns the capture at the leftmost matching position |
| CurrencyKnowledge.ParseCurrencyPair | src/services/currencyKnowledge.js:45-78 | an empty input gives null, and a parsed pair is two three- or four-letter upper-case codes |
| CurrencyKnowledge.ParseCurrencyPairOf | src/services/currencyKnowledge.js:45-48 | a falsy value gives null, a string is parsed, and any other value throws |
| CurrencyKnowledge.PatternCascade | src/services/currencyKnowledge.js:50-77 | each of the three patterns in turn captures two codes |
| CurrencyKnowledge.ParseCurrencyPairPicksFirstPattern | src/services/currencyKnowledge.js:46-77 | on the upper-cased, trimmed input, the first pattern that matches anywhere decides, at its leftmost match; null only when no pattern matches |
| CurrencyKnowledge.ParseCurrencyPairIgnoresCase | src/services/currencyKnowledge.js:48 | the parse of a text, its upper-case and its lower-case form are the same |
| CurrencyKnowledge.SlashMatchesFormatted | src/services/currencyKnowledge.js:51-57 | on `a/b` the slash pattern captures exactly `a` and `b` |
| CurrencyKnowledge.FormattedIsPrepared | src/services/currencyKnowledge.js:48 | `a/b` of two codes is unchanged by upper-casing and trimming |
| CurrencyKnowledge.FormatCurrencyPair | src/services/currencyKnowledge.js:157-159 | the `a/b` text of two codes parses back to the pair `(a, b)` |
| CurrencyKnowledge.ParseSlashedCodes | src/services/currencyKnowledge.js:51-57 | the text `a/b` of two codes parses to the pair `(a, b)` |
| CurrencyKnowledge.ParsePreparedSlash | src/services/currencyKnowledge.js:46-57 | prepared text that starts with a slash pair parses to that pair |
| CurrencyKnowledge.IsValidCurrencyMeaning | src/services/currencyKnowledge.js:164-169 | a value is a valid currency exactly when it is a string of three or four ASCII letters of either case |
| CurrencyKnowledge.CodeIsValidCurrency | src/services/currencyKnowledge.js:164-169 | every code the parser captures is a valid currency |
| CurrencyKnowledge.IsValidCurrency | src/services/currencyKnowledge.js:164-169 | a valid currency is a string of three or four characters |
| CurrencyKnowledge.Round2 | src/services/currencyKnowledge.js:124 | rounding to two decimals moves a value by more than -0.005 and at most +0.005 |
| CurrencyKnowledge.CalculateAmounts | src/services/currencyKnowledge.js:88-152 | it throws only on a non-string code; it keeps every field other than the two amounts, and keeps any amount already present |
| CurrencyKnowledge.FillMissing | src/services/currencyKnowledge.js:106-151 | filling in an amount never touches another field or an amount already present |
| CurrencyKnowledge.CalculateAmountsLeavesIncomplete | src/services/currencyKnowledge.js:91-98 | with a code or the rate missing, a rate that is NaN or not positive, or both or neither amount, the draft comes back unchanged |
| CurrencyKnowledge.RoundingGapBound | src/services/currencyKnowledge.js:124 | a half-cent rounding error, left as is or scaled by the rate, stays within 0.005 × (rate + 1) |
| CurrencyKnowledge.FilledAmount | src/services/currencyKnowledge.js:111-146 | the filled amount is within half a cent of the known amount times the rate when the known side is the stronger currency, and of the known amount divided by the rate otherwise |
| CurrencyKnowledge.CalculateAmountsFourCases | src/services/currencyKnowledge.js:106-148 | with both codes and a positive rate: a known buy amount in the stronger currency is multiplied by the rate, in the weaker divided; a known sell amount is divided when the bought currency is stronger and multiplied otherwise; the result is rounded and only the missing field is added; an amount that is NaN leaves the draft unchanged |
| CurrencyKnowledge.FilledAmountKeepsRate | src/services/currencyKnowledge.js:103-148 | after filling, "1 stronger = rate weaker" holds up to the rounding error |
| CurrencyKnowledge.HkdUsdtExample | src/services/currencyKnowledge.js:81-87 | at HKD/USDT rate 7, buying 700 HKD sells 100 USDT, and selling 100 USDT buys 700 HKD |
| ConversationState.Fresh | src/services/conversationState.js:17-22 | a new conversation has no history, no action, no data, and the current time |
| ConversationState.LastN | src/services/conversationState.js:37 | the last `n` entries, in their order |
| ConversationState.SliceFromEnd | src/services/conversationState.js:90 | `slice(-limit)`: a suffix, the last `limit` entries for a positive limit, and everything for 0 |
| ConversationState.Merge | src/services/conversationState.js:47 | the object spread: incoming keys override, and every other key is kept |
| ConversationState.Appended | src/services/conversationState.js:32-38 | the new entry is last, older entries keep their order, the length is capped at 6, and action and data are untouched |
| ConversationState.WithAction | src/services/conversationState.js:46-48 | the action is set and the data merged; the history is unchanged |
| ConversationState.WithData | src/services/conversationState.js:56-57 | the data is merged; the action and history are unchanged |
| ConversationState.Cleared | src/services/conversationState.js:81-82 | no action and no data; the history and last activity are unchanged |
| ConversationState.Ensured | src/services/conversationState.js:15-25 | the room exists afterwards, an existing room is unchanged, and no other room changes |
| ConversationState.Updated | src/services/conversationState.js:15-25 | only the given room's conversation is replaced |
| ConversationState.AfterAddMessage | src/services/conversationState.js:30-39 | the room's history becomes the last 6 of the old history plus the new entry; its action is unchanged and other rooms are untouched |
| ConversationState.AfterSetCurrentAction | src/services/conversationState.js:44-49 | the room's action is the new one, its data is merged and its history is unchanged |
| ConversationState.AfterUpdateCollectedData | src/services/conversationState.js:54-58 | the room's data is merged, and its action and history are unchanged |
| ConversationState.AfterClearCurrentAction | src/services/conversationState.js:79-83 | the room has no action and no data, with its history unchanged |
| ConversationState.Swept | src/services/conversationState.js:105-113 | exactly the rooms idle for more than 30 minutes are removed; the others are kept identical |
| ConversationState.AppendedIsLastSix | src/services/conversationState.js:32-38 | the history after appending is the last 6 of old plus new, and plain old plus new below the cap |
| ConversationState.MergeTwice | src/services/conversationState.js:47 | merging twice is merging once with the two updates merged |
| ConversationState.ClearedIsIdempotent | src/services/conversationState.js:79-83 | clearing twice is clearing once |
| ConversationState.SweptIsIdempotent | src/services/conversationState.js:105-113 | a second sweep at the same time removes nothing |
| ConversationState.TouchedRoomSurvivesSweep | src/services/conversationState.js:105-113 | a room that received a message at most 30 minutes before a sweep survives it |
| ConversationState.ConversationStore.constructor | src/services/conversationState.js:7-10 | the store starts empty |
| ConversationState.ConversationStore.GetConversation | src/services/conversationState.js:15-25 | creates the room lazily and returns its conversation |
| ConversationState.ConversationStore.AddMessage | src/services/conversationState.js:30-39 | the store becomes `AfterAddMessage` of the old store, and the history cap holds |
| ConversationState.ConversationStore.SetCurrentAction | src/services/conversationState.js:44-49 | the store becomes `AfterSetCurrentAction` of the old store |
| ConversationState.ConversationStore.UpdateCollectedData | src/services/conversationState.js:54-58 | the store becomes `AfterUpdateCollectedData` of the old store |
| ConversationState.ConversationStore.GetCurrentAction | src/services/conversationState.js:63-66 | the room's action, or null for a new room, which is created |
| ConversationState.ConversationStore.GetCollectedData | src/services/conversationState.js:71-74 | the room's data, or `{}` for a new room, which is created |
| ConversationState.ConversationStore.ClearCurrentAction | src/services/conversationState.js:79-83 | the store becomes `AfterClearCurrentAction` of the old store |
| ConversationState.ConversationStore.GetHistoryForAI | src/services/conversationState.js:88-91 | `slice(-limit)` of the room's history; only a missing room is created |
| ConversationState.ConversationStore.HasActiveConversation | src/services/conversationState.js:96-100 | true exactly when the room exists and has an action; nothing is created |
| ConversationState.ConversationStore.Cleanup | src/services/conversationState.js:105-113 | the store becomes `Swept` of the old store; the loop deletes idle rooms one at a time |
| MessageHandler.HelpMessage | src/bot/messageHandler.js:155-187 | the help text starts with the command list and ends with the tips; the admin section is present exactly for admins |
| MessageHandler.AdminHelpExtendsHelp | src/bot/messageHandler.js:156-178 | the admin help is the plain help with the admin section inserted after the transfer commands |
| MessageHandler.IsHelpCommand | src/bot/messageHandler.js:13-17 | a help command is never also a cancel command, and is at least four characters long |
| MessageHandler.IsCancelCommand | src/bot/messageHandler.js:20-25 | a cancel command is at least five characters long, the length of the shortest cancel word |
| MessageHandler.CommandsIgnoreCase | src/bot/messageHandler.js:13-25 | `help` and the cancel words are recognised in any case |
| MessageHandler.ActionFromWording | src/bot/messageHandler.js:59-68 | the wording yields a create action; "create order" gives `create_order`; any "transfer" gives an action; nothing is inferred exactly when no phrase occurs |
| MessageHandler.TransferWordingSubsumes | src/bot/messageHandler.js:65 | "create a transfer" contains "transfer", so the second test covers the first |
| MessageHandler.GuessActionFromData | src/bot/messageHandler.js:142-153 | currency fields give `create_order`; description and amount without a source account give `create_expense`; an account name gives `create_transfer`; otherwise null |
| MessageHandler.QuestionAction | src/bot/messageHandler.js:57-73 | the action in progress is kept; otherwise the wording is tried, then the data; a non-string message throws |
| MessageHandler.AnswerQuestion | src/bot/messageHandler.js:55-92 | an inferred create from a non-admin clears the action and answers with the rejection; otherwise the action is stored only with data, and the reply is the AI message or "Could you provide more details?" |
| MessageHandler.Dispatch | src/bot/messageHandler.js:103-121 | each handler action reaches its own handler, which makes only calls of its own kind |
| MessageHandler.Route | src/bot/messageHandler.js:94-131 | a create from a non-admin is rejected and cleared with no call; `help` gives the help text; any other action gives the message or the "not sure" text |
| MessageHandler.NewestEntryIsSent | src/bot/messageHandler.js:28-50 | the message just stored is among those sent to the language model |
| MessageHandler.Act | src/bot/messageHandler.js:54-136 | after the AI answer, only admins cause a create call; exactly the reply is appended to the history; no other room changes |
| MessageHandler.Converse | src/bot/messageHandler.js:28-136 | a non-admin's create in progress is cleared without consulting the model; otherwise the model sees the stored history, and a model failure is rethrown with the room's action and collected data left as they were |
| MessageHandler.Reply | src/bot/messageHandler.js:12-136 | help is answered first and keeps the action and collected data; cancel clears both; then the non-admin block, then the model, whose failure keeps both |
| MessageHandler.HandleMessage | src/bot/messageHandler.js:8-137 | each turn appends the user message, then exactly one assistant reply equal to the returned text; help keeps the action and collected data, cancel empties both, a model failure keeps both; no create call and no create action in progress for a non-admin |
| HandlerCommon.Caught | src/handlers/orderHandler.js:26-29 | a returned text passes through, and a thrown error becomes "❌ Oops! Something went wrong: " plus its message |
| HandlerCommon.CheckId | src/handlers/orderHandler.js:117-126 | a falsy id is missing; a string id that `parseInt` rejects is invalid; otherwise the parsed number, or the value itself |
| HandlerCommon.CheckIdOfNumberOrText | src/handlers/orderHandler.js:122 | a non-zero number and its decimal text are the same valid id |
| HandlerCommon.Lookup | src/handlers/orderHandler.js:116-139 | a missing or invalid id gives its prompt with no call; a valid id makes exactly one get call, whose error propagates |
| HandlerCommon.MissingFields | src/handlers/orderHandler.js:43-44 | exactly the required fields that are falsy |
| HandlerCommon.MissingFieldsKeepsOrder | src/handlers/orderHandler.js:44 | a falsy first field is reported first; a truthy first field is skipped and the rest are reported as for the remaining fields |
| HandlerCommon.MissingFieldsAppend | src/handlers/orderHandler.js:44 | the missing fields of two field lists in a row are those of the first list followed by those of the second, so the report follows the required order |
| HandlerCommon.CurrencyLabel | src/handlers/expenseHandler.js:44 | a record's currency code when it has one, and "USD" when it has none |
| HandlerCommon.RowsAppend | src/handlers/orderHandler.js:177-191 | rendering two lists of rows is rendering each in turn |
| HandlerCommon.RenderRows | src/handlers/orderHandler.js:172-191 | the header followed by the first min(n, 20) rows, each rendered in order |
| HandlerCommon.WithTrailer | src/handlers/orderHandler.js:193-196 | the trailer is added only when rows were left out, and never changes the text before it |
| HandlerCommon.ListingOfFewRows | src/handlers/orderHandler.js:170-198 | with at most 20 rows, all are shown and there is no trailer |
| HandlerCommon.ListingOfManyRows | src/handlers/orderHandler.js:170-198 | with more than 20 rows, the first 20 are shown, then "... and (n-20) more", then the tip |
| OrderHandler.ResolvePair | src/handlers/orderHandler.js:34-40 | the pair is parsed only when both codes are absent; a failed parse leaves both absent; a success sets two valid codes; nothing else changes |
| OrderHandler.FillCurrenciesFromPair | src/handlers/orderHandler.js:34-40 | the in-place filling of the two codes gives `ResolvePair` of the draft |
| OrderHandler.FirstQuestion | src/handlers/orderHandler.js:43-63 | the checks run in order (required fields, some amount, buy account, sell account), the first failing one asks, and none fails exactly when the draft is complete |
| OrderHandler.StillNeedNamesAllMissing | src/handlers/orderHandler.js:48 | without an AI message, "I still need: " lists every missing field, in order |
| OrderHandler.WithDefaultType | src/handlers/orderHandler.js:69-71 | the order always has a type, and a given type is kept |
| OrderHandler.WithHandler | src/handlers/orderHandler.js:79-85 | `handlerId` is set to the mapped user's id exactly when the sender is mapped |
| OrderHandler.Finish | src/handlers/orderHandler.js:66-85 | a submitted order has both amounts and a type, and its handler is the sender's mapped user; its amounts are those `calculateAmounts` returned, its type is the given one or "online", and every other field but `handlerId` is the draft's; otherwise it is the warning or a thrown comparison error |
| OrderHandler.FinishWithBothAmounts | src/handlers/orderHandler.js:66-76 | with both amounts given, the order is submitted with those amounts |
| OrderHandler.PrepareOrder | src/handlers/orderHandler.js:32-85 | an order is submitted only when complete, with the amounts `calculateAmounts` returned, the given type or "online", the right handler and every other field of the resolved draft; failures are only the two type errors |
| OrderHandler.Respond | src/handlers/orderHandler.js:87-113 | exactly a submitted order makes a create call; a stored order gives the confirmation text, and a call error is rethrown |
| OrderHandler.CreatedTextNamesHandler | src/handlers/orderHandler.js:96-109 | the confirmation opens with the order id, and its Handler line names the sender's mapped user, or "Unassigned" when the sender is not registered |
| OrderHandler.CreateOrder | src/handlers/orderHandler.js:32-114 | the outcome is that of the prepared order; the room's action is cleared exactly when the create call was made, whether it succeeded or threw |
| OrderHandler.CheckOrderFields | src/handlers/orderHandler.js:43-63 | the early returns give `FirstQuestion` |
| OrderHandler.SubmitOrder | src/handlers/orderHandler.js:66-113 | the outcome is that of the finished order, and the action is cleared exactly when the call is made |
| OrderHandler.PlaceOrder | src/handlers/orderHandler.js:69-113 | once the amounts are calculated: the default type, the amount check and the handler, then the call; the action is cleared exactly when the call is made |
| OrderHandler.SendOrder | src/handlers/orderHandler.js:87-113 | the create call is made and the room's action is cleared on both success and failure |
| OrderHandler.GetOrderStatus | src/handlers/orderHandler.js:116-139 | a missing or invalid id gives its prompt with no call; a valid id makes one get call for the parsed id and answers with the order's details, or passes the error on |
| OrderHandler.CompleteOrder | src/handlers/orderHandler.js:141-159 | a missing or invalid id gives its prompt with no call; a valid id makes one complete call for the parsed id and answers with the completion text, or passes the error on |
| OrderHandler.OrderCompletedText | src/handlers/orderHandler.js:155-158 | opens with the completed order's id and ends with the amount sold and its currency |
| OrderHandler.OrderDetailsText | src/handlers/orderHandler.js:130-138 | the last line names the handler when the order has one, and is empty otherwise |
| OrderHandler.DateLabel | src/handlers/orderHandler.js:209-218 | each key of the date-label table is shown with its underscores as spaces; any other value is shown as it is |
| OrderHandler.Part | src/handlers/orderHandler.js:204-219 | a filter contributes one part exactly when it is set |
| OrderHandler.FilterParts | src/handlers/orderHandler.js:202-219 | at most seven parts, and none exactly when no filter is set |
| OrderHandler.FilterDescription | src/handlers/orderHandler.js:201-222 | empty exactly when no filter is set, otherwise ` (` and the parts joined by `, ` and `)` |
| OrderHandler.PartIsListed | src/handlers/orderHandler.js:204-219 | every set filter of a key list contributes its part |
| OrderHandler.PartsKeepKeyOrder | src/handlers/orderHandler.js:204-219 | of two set filters, the part of the earlier key comes first |
| OrderHandler.FilterPartsFollowKeys | src/handlers/orderHandler.js:204-219 | the parts are those of status, tags, handler, customer, createdBy, dateRange and currencyPair, in that order |
| OrderHandler.FilterPartsKeepOrder | src/handlers/orderHandler.js:204-219 | of two set filters among the seven, the earlier key's part is listed before the later one's |
| OrderHandler.PushPart | src/handlers/orderHandler.js:204 | a push adds that filter's part at the end |
| OrderHandler.BuildFilterDescription | src/handlers/orderHandler.js:201-222 | the pushes build `FilterDescription` |
| OrderHandler.ListOrders | src/handlers/orderHandler.js:161-199 | one list call for 100 orders; no results give "📋 No orders found" plus the filter description; otherwise the 20-row listing with the trailer |
| OrderHandler.OrderRow | src/handlers/orderHandler.js:177-190 | one line per order, opening with `#` and its id |
| OrderHandler.RunOrderAction | src/handlers/orderHandler.js:6-25 | each action gives its operation's outcome, with the create confirmation and the list reply (error, "No orders found" with the filter description, or the listing) written out; an unknown action gives the message or "❌ Unknown order action" with no call |
| OrderHandler.QueryOrders | src/handlers/orderHandler.js:14-25 | the read-only actions make only get, complete or list calls |
| OrderHandler.HandleOrderCommand | src/handlers/orderHandler.js:6-30 | the reply of each action: the question, the confirmation or the "Oops" message for a create; the details or the completion for a lookup; the listing or "No orders found" for a list; any thrown error becomes the "Oops" message; only order calls are made, and a create only for `create_order` |
| ExpenseHandler.CreateExpense | src/handlers/expenseHandler.js:27-54 | missing amount or description asks with no call; otherwise one create call, and the action is cleared on success and on failure |
| ExpenseHandler.ExpenseNeedsAmountAndDescription | src/handlers/expenseHandler.js:28-29 | nothing is missing exactly when amount and description are both truthy |
| ExpenseHandler.ExpenseCreatedText | src/handlers/expenseHandler.js:41-49 | the confirmation opens with the new expense's id, then its amount and currency ("USD" when none is given) |
| ExpenseHandler.GetExpenseDetails | src/handlers/expenseHandler.js:56-73 | a missing or invalid id gives its prompt with no call; a valid id makes one get call |
| ExpenseHandler.ExpenseDetailsText | src/handlers/expenseHandler.js:66-72 | opens with the id, amount and currency ("USD" when none is given); the last line names the creator when known, and is empty otherwise |
| ExpenseHandler.ListExpenses | src/handlers/expenseHandler.js:75-106 | one list call; no results give "📋 No expenses found."; otherwise the 20-row listing with the trailer |
| ExpenseHandler.ExpenseRow | src/handlers/expenseHandler.js:93-97 | one line per expense, opening with `#` and its id and showing its amount and currency ("USD" when none is given) |
| ExpenseHandler.RunExpenseAction | src/handlers/expenseHandler.js:4-20 | a create asks for the missing fields with no call, or makes one create call whose answer becomes the confirmation; a list gives "No expenses found." or the listing; an unknown action gives the message or "❌ Unknown expense action" |
| ExpenseHandler.HandleExpenseCommand | src/handlers/expenseHandler.js:4-25 | the reply of each action: the question, the confirmation or the "Oops" message for a create; the details for a lookup; the listing or "No expenses found." for a list; any thrown error becomes the "Oops" message; only expense calls are made |
| TransferHandler.AccountLabel | src/handlers/transferHandler.js:49-50 | the account's name, or "Account #" plus its id |
| TransferHandler.TransferCreatedText | src/handlers/transferHandler.js:45-54 | the confirmation opens with the new transfer's id, then its amount and currency ("USD" when none is given) |
| TransferHandler.TransferQuestion | src/handlers/transferHandler.js:28-38 | amount, then source account, then target account are checked; the first missing one asks; none is missing exactly when the transfer is complete |
| TransferHandler.CreateTransfer | src/handlers/transferHandler.js:27-59 | an incomplete transfer asks with no call; otherwise one create call, and the action is cleared on success and on failure |
| TransferHandler.AccountIdsSuffice | src/handlers/transferHandler.js:32-38 | account ids alone, without names, are enough |
| TransferHandler.GetTransferDetails | src/handlers/transferHandler.js:61-79 | a missing or invalid id gives its prompt with no call; a valid id makes one get call |
| TransferHandler.TransferDetailsText | src/handlers/transferHandler.js:71-78 | opens with the id, amount and currency ("USD" when none is given); the last line names the creator when known, and is empty otherwise |
| TransferHandler.ListTransfers | src/handlers/transferHandler.js:81-114 | one list call; no results give "📋 No transfers found."; otherwise the 20-row listing with the trailer |
| TransferHandler.TransferRow | src/handlers/transferHandler.js:99-105 | one line per transfer, opening with `#` and its id and showing its amount and currency ("USD" when none is given) |
| TransferHandler.RunTransferAction | src/handlers/transferHandler.js:4-20 | a create asks for the first missing piece with no call, or makes one create call whose answer becomes the confirmation; a list gives "No transfers found." or the listing; an unknown action gives the message or "❌ Unknown transfer action" |
| TransferHandler.HandleTransferCommand | src/handlers/transferHandler.js:4-25 | the reply of each action: the question, the confirmation or the "Oops" message for a create; the details for a lookup; the listing or "No transfers found." for a list; any thrown error becomes the "Oops" message; only transfer calls are made |
| UserMapping.GetOrderSystemUser | src/config/userMapping.js:38-49 | the entry for `String(id)`, or null exactly when there is none |
| UserMapping.IsUserRegistered | src/config/userMapping.js:54-57 | a sender is registered exactly when it has a mapped user |
| UserMapping.IsAdmin | src/config/userMapping.js:69-72 | a sender is an admin exactly when `String(id)` occurs at some position of the admin list; an empty list has no admins |
| UserMapping.NumericAndTextIdsAgree | src/config/userMapping.js:38-72 | a numeric id and its decimal text agree on admin, registration and mapping |
| UserMapping.ShippedDeniesEveryone | src/config/userMapping.js:6-33 | with the shipped tables nobody is an admin, registered or mapped |
| UserMapping.GetAllRegisteredUsers | src/config/userMapping.js:62-64 | exactly the table's keys, each once |
| UserMapping.ActionText | src/config/userMapping.js:78-84 | each create action has its wording, and anything else gets "perform this action" |
| UserMapping.GetNonAdminMessage | src/config/userMapping.js:77-87 | the fixed rejection text with the action's wording in the middle |
| UserMapping.NonAdminMessagesDiffer | src/config/userMapping.js:77-87 | the three create actions get three different messages |
| NotificationPusher.IconFor | src/services/notificationPusher.js:57-76 | the table's icon for the type, else the bell |
| NotificationPusher.BellMeansUnknownType | src/services/notificationPusher.js:76 | the bell appears exactly for a type missing from the table |
| NotificationPusher.FormatNotification | src/services/notificationPusher.js:53-90 | the text starts with icon, title and message; the entity line comes next exactly when type and id are both set; the user line comes last exactly when a user name is set |
| NotificationPusher.OtherFieldsAreIgnored | src/services/notificationPusher.js:54 | fields other than the displayed ones do not affect the text |
| NotificationPusher.UserLineComesLast | src/services/notificationPusher.js:85-87 | with a user name, the text is the text without it plus the user line |
| NotificationPusher.Successes | src/services/notificationPusher.js:100 | the count of fulfilled pushes is at most the number of pushes |
| NotificationPusher.Outbox | src/services/notificationPusher.js:95-98 | every message goes to the target chat |
| NotificationPusher.OutboxMatchesSuccesses | src/services/notificationPusher.js:95-103 | one message is sent per successful push |
| NotificationPusher.Pusher.constructor | src/services/notificationPusher.js:9-10 | no bot yet and nothing sent |
| NotificationPusher.Pusher.Init | src/services/notificationPusher.js:15-23 | the bot is set, and nothing is sent |
| NotificationPusher.Pusher.Push | src/services/notificationPusher.js:28-48 | true exactly when a bot and a target chat exist and the send succeeds; then exactly the formatted text is sent to the target chat |
| NotificationPusher.Pusher.PushAll | src/services/notificationPusher.js:95-104 | the count of successful pushes, at most the number of notifications, with exactly their texts sent in order |
| AiService.BuildMessages | src/services/aiService.js:145-163 | the system prompt first; at most the last four history entries in order; the context note exactly when an action with data is in progress; the user message last |
| AiService.HistoryMessages | src/services/aiService.js:148-152 | exactly the last min(4, n) history entries, oldest first |
| AiService.ContextNote | src/services/aiService.js:155-160 | the note opens with "Context: User is currently working on: " and the action, and ends with the collected data |
| AiService.ProcessWithAI | src/services/aiService.js:141-187 | the model's answer is returned as it is, and a failure is rethrown as "Failed to process your request with AI: " plus its message |
| Js.Truthy | src/handlers/orderHandler.js:44 | falsy exactly for `undefined`, `null`, `false`, `0` and the empty string |
| Js.ToText | src/config/userMapping.js:40 | `String(s)` of a string is the string itself |
| Js.Trim | src/bot/messageHandler.js:13 | no longer than the input, with no white space at either end, and a text without white space is unchanged |
| Js.ParseInt | src/handlers/orderHandler.js:122 | the empty text is NaN |
| Js.ParseIntOfDigits | src/handlers/orderHandler.js:122 | a plain run of digits parses to its decimal value |
| Js.ParseIntOfIntToString | src/handlers/orderHandler.js:122 | the decimal text of any integer, negative ones included, parses back to it |
| Js.ParseFloat | src/services/currencyKnowledge.js:95 | the empty text is NaN, and a plain run of digits reads as its decimal value |

## Left out

- The language-model request, the parsing of its JSON reply and the text of the system prompt: the answer and the prompt are parameters.
- The order-system HTTP client: query-string building, `encodeURIComponent`, and the mapping of transport errors to messages. Each call is the `Request` value the handler returns, and its answer is a parameter.
- Telegram polling, `sendMessage`, the webhook server, the environment check and all console logging. The pusher's send outcome is a parameter.
- `Date.now()` is the parameter `now`. The `setInterval` that runs `cleanup` every ten minutes is not modelled.
- Date rendering (`toLocaleString`, `getMonth`, `getDate`) is the opaque parameter `fmt`.
- Numbers are reals, not IEEE-754 doubles. Overflow, `Infinity`, `NaN` as a stored value, exponent notation in `String(x)`, and the binary rounding of `Math.round(x * 100) / 100` are not modelled.
- Strings are case-mapped for ASCII letters only; other Unicode case mappings are not modelled.
- JSON values are flat: nested objects and arrays (for example a `tags` array) are not modelled. Object key order is not modelled either.
- Keys inherited from `Object.prototype` (such as `constructor`) are treated as absent in every table lookup, including the icon table.
- An AI reply without `data` is treated as having `{}`.
- A `null` list answer from the record system is treated like an empty list, as every handler does.
- History entries always hold string content; a non-string message is not modelled.
- `ConversationState.ConversationStore.GetHistoryForAI`: the limit is an integer; a non-integer or missing limit other than the default is not modelled.
- `NotificationPusher.Pusher.Init`: the bot object is modelled only as present or absent, and the target chat id is a constructor parameter instead of an environment variable.
- `NotificationPusher.Pusher.Push`: a notification that makes formatting throw (such as `null`) is not modelled; it would be caught and counted as a failure.
- `NotificationPusher.Pusher.PushAll`: `Promise.allSettled` runs the pushes concurrently; the model runs them one after another in order.
- `UserMapping.GetAllRegisteredUsers`: the order of `Object.keys` is not stated; only that each key appears exactly once.
- `MessageHandler.Dispatch`: it states which handler receives each action and what kind of call results. The reply texts are stated by the contracts of `OrderHandler.HandleOrderCommand`, `ExpenseHandler.HandleExpenseCommand` and `TransferHandler.HandleTransferCommand`.
- Concurrent turns: `src/index.js:22` registers an async message listener, so two messages can interleave at each `await` (the model call, the record-system calls) and see each other's half-done conversation state. The model runs each turn to completion before the next one starts.
