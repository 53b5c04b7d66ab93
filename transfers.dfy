/**
 * The transfer commands: create a transfer between two accounts once the
 * amount and both accounts are known, show one transfer, and list transfers.
 * An account is known by its name or by its id.
 */
module TransferHandler {
  import opened Js
  import opened ConversationState
  import opened AiService
  import Api = OrderSystemApi
  import opened HandlerCommon

  const AmountPrompt := "How much would you like to transfer?"
  const FromPrompt := "Which account should I transfer from?"
  const ToPrompt := "Which account should I transfer to?"

  /** `name || 'Account #' + id`: an account's name, or its id when it has none. */
  function AccountLabel(name: Value, id: Value): (r: string)
    ensures Truthy(name) ==> r == ToText(name)
    ensures !Truthy(name) ==> r == "Account #" + ToText(id)
  {
    OrElse(name, "Account #" + ToText(id))
  }

  /** Enough is known to create the transfer. */
  predicate TransferComplete(d: Data)
  {
    && Truthy(Get(d, "amount"))
    && (Truthy(Get(d, "fromAccountName")) || Truthy(Get(d, "fromAccountId")))
    && (Truthy(Get(d, "toAccountName")) || Truthy(Get(d, "toAccountId")))
  }

  /** The checks of `createTransfer` in the source's order: amount, source account, target account. */
  function TransferQuestion(d: Data, message: Value): (q: Option<string>)
    ensures q.None? <==> TransferComplete(d)
    ensures !Truthy(Get(d, "amount")) ==> q == Some(OrElse(message, AmountPrompt))
    ensures (Truthy(Get(d, "amount")) && !Truthy(Get(d, "fromAccountName")) && !Truthy(Get(d, "fromAccountId"))) ==>
      q == Some(OrElse(message, FromPrompt))
    ensures (Truthy(Get(d, "amount")) && (Truthy(Get(d, "fromAccountName")) || Truthy(Get(d, "fromAccountId"))) &&
             !TransferComplete(d)) ==>
      q == Some(OrElse(message, ToPrompt))
  {
    if !Truthy(Get(d, "amount")) then Some(OrElse(message, AmountPrompt))
    else if !Truthy(Get(d, "fromAccountName")) && !Truthy(Get(d, "fromAccountId")) then Some(OrElse(message, FromPrompt))
    else if !Truthy(Get(d, "toAccountName")) && !Truthy(Get(d, "toAccountId")) then Some(OrElse(message, ToPrompt))
    else None
  }

  /** The confirmation shown after the record system stored the transfer: its id, then its amount and currency. */
  function TransferCreatedText(transfer: Data, fmt: DateFormat): (text: string)
    ensures "✅ **Perfect! Transfer Created Successfully!**\n\n📝 Transfer ID: #" + ToText(Get(transfer, "id")) +
      "\n💰 Amount: " + ToText(Get(transfer, "amount")) + " " + CurrencyLabel(Get(transfer, "currencyCode")) <= text
  {
    var opening := "✅ **Perfect! Transfer Created Successfully!**\n\n📝 Transfer ID: #" + ToText(Get(transfer, "id")) +
      "\n💰 Amount: " + ToText(Get(transfer, "amount")) + " " + CurrencyLabel(Get(transfer, "currencyCode"));
    opening +
    ("\n📤 From: " + AccountLabel(Get(transfer, "fromAccountName"), Get(transfer, "fromAccountId")) +
     "\n📥 To: " + AccountLabel(Get(transfer, "toAccountName"), Get(transfer, "toAccountId")) +
     "\n" + (if Truthy(Get(transfer, "description")) then "📄 Note: " + ToText(Get(transfer, "description")) else "") +
     "\n📅 Date: " + fmt.localeString(Get(transfer, "createdAt")) +
     "\n\nIs there anything else you need?")
  }

  /**
   * `createTransfer(transferData, roomId, message)`: the first missing piece
   * is asked for and nothing changes; otherwise the transfer is sent as the
   * AI gave it and the room's action is cleared whether the call succeeded
   * or threw.
   */
  method CreateTransfer(store: ConversationStore, transferData: Data, room: RoomId, conversationalMessage: Value,
                        now: int, reply: Outcome<Data>, fmt: DateFormat)
    returns (h: Handled)
    requires store.Valid()
    modifies store
    ensures store.Valid()
    ensures var q := TransferQuestion(transferData, conversationalMessage);
      && (q.Some? ==> h == Handled(Returned(q.value), None))
      && (q.None? ==> h.call == Some(Api.CreateTransfer(transferData)))
    ensures h.call.Some? && reply.Returned? ==> h.result == Returned(TransferCreatedText(reply.value, fmt))
    ensures h.call.Some? && reply.Threw? ==> h.result == Threw(reply.message)
    ensures store.conversations ==
      if h.call.Some? then AfterClearCurrentAction(old(store.conversations), room, now) else old(store.conversations)
  {
    if !Truthy(Get(transferData, "amount")) {
      return Handled(Returned(OrElse(conversationalMessage, AmountPrompt)), None);
    }
    if !Truthy(Get(transferData, "fromAccountName")) && !Truthy(Get(transferData, "fromAccountId")) {
      return Handled(Returned(OrElse(conversationalMessage, FromPrompt)), None);
    }
    if !Truthy(Get(transferData, "toAccountName")) && !Truthy(Get(transferData, "toAccountId")) {
      return Handled(Returned(OrElse(conversationalMessage, ToPrompt)), None);
    }
    var call := Api.CreateTransfer(transferData);
    match reply
    case Returned(transfer) =>
      store.ClearCurrentAction(room, now);
      h := Handled(Returned(TransferCreatedText(transfer, fmt)), Some(call));
    case Threw(message) =>
      store.ClearCurrentAction(room, now);
      h := Handled(Threw(message), Some(call));
  }

  /** An account id alone is enough: a name is never required. */
  lemma AccountIdsSuffice(d: Data)
    requires Truthy(Get(d, "amount")) && Truthy(Get(d, "fromAccountId")) && Truthy(Get(d, "toAccountId"))
    ensures forall message :: TransferQuestion(d, message).None?
  {
  }

  /**
   * The details of one transfer: they open with its id, amount and currency;
   * the last line names its creator when known and is empty otherwise.
   */
  function TransferDetailsText(transfer: Data, fmt: DateFormat): (text: string)
    ensures "📋 **Transfer #" + ToText(Get(transfer, "id")) + " Details**\n\n💰 Amount: " +
      ToText(Get(transfer, "amount")) + " " + CurrencyLabel(Get(transfer, "currencyCode")) <= text
    ensures var creator := Get(transfer, "createdByName");
      && (Truthy(creator) ==> var line := "👤 Created by: " + ToText(creator);
            |line| <= |text| && text[|text| - |line|..] == line)
      && (!Truthy(creator) ==> 0 < |text| && text[|text| - 1] == '\n')
  {
    var opening := "📋 **Transfer #" + ToText(Get(transfer, "id")) + " Details**\n\n💰 Amount: " +
      ToText(Get(transfer, "amount")) + " " + CurrencyLabel(Get(transfer, "currencyCode"));
    WithLastLine(
      opening +
      ("\n📤 From: " + AccountLabel(Get(transfer, "fromAccountName"), Get(transfer, "fromAccountId")) +
       "\n📥 To: " + AccountLabel(Get(transfer, "toAccountName"), Get(transfer, "toAccountId")) +
       "\n" + (if Truthy(Get(transfer, "description")) then "📄 Description: " + ToText(Get(transfer, "description")) else "") +
       "\n📅 Created: " + fmt.localeString(Get(transfer, "createdAt"))),
      Get(transfer, "createdByName"), "👤 Created by: ")
  }

  function TransferDetailsOf(fmt: DateFormat): Data -> string
  {
    transfer => TransferDetailsText(transfer, fmt)
  }

  /** `getTransferDetails(transferId)`: no call without a usable id. */
  function GetTransferDetails(transferId: Value, reply: Outcome<Data>, fmt: DateFormat): (h: Handled)
    ensures h.call.None? <==> !CheckId(transferId).GoodId?
    ensures h.call.Some? ==> h.call.value == Api.GetTransfer(CheckId(transferId).id)
    ensures !Truthy(transferId) ==>
      h.result == Returned("❌ Please provide a transfer ID (e.g., \"status of transfer #67\").")
    ensures CheckId(transferId).BadId? ==> h.result == Returned("❌ Invalid transfer ID.")
    ensures h.call.Some? && reply.Returned? ==> h.result == Returned(TransferDetailsText(reply.value, fmt))
    ensures h.call.Some? && reply.Threw? ==> h.result == Threw(reply.message)
  {
    Lookup(transferId, "❌ Please provide a transfer ID (e.g., \"status of transfer #67\").", "❌ Invalid transfer ID.",
           id => Api.GetTransfer(id), reply, TransferDetailsOf(fmt))
  }

  /** One transfer's line in the list: it opens with the id and shows the amount and currency. */
  function TransferRow(fmt: DateFormat, transfer: Data): (row: string)
    ensures "#" + ToText(Get(transfer, "id")) + " " <= row && row[|row| - 1] == '\n'
    ensures Contains(row, ToText(Get(transfer, "amount")) + " " + CurrencyLabel(Get(transfer, "currencyCode")))
  {
    var before := fmt.monthDay(Get(transfer, "createdAt")) + ": " +
      AccountLabel(Get(transfer, "fromAccountName"), Get(transfer, "fromAccountId")) + " → " +
      AccountLabel(Get(transfer, "toAccountName"), Get(transfer, "toAccountId")) + " | ";
    var amount := ToText(Get(transfer, "amount")) + " " + CurrencyLabel(Get(transfer, "currencyCode"));
    var after :=
      (if Truthy(Get(transfer, "createdByName")) then " | ✍️" + ToText(Get(transfer, "createdByName")) else "") +
      (if Truthy(Get(transfer, "description")) then " | 📄" + ToText(Get(transfer, "description")) else "");
    RecordLineShows(Get(transfer, "id"), before, amount, after);
    RecordLine(Get(transfer, "id"), before + amount + after)
  }

  function TransferRowOf(fmt: DateFormat): Data -> string
  {
    transfer => TransferRow(fmt, transfer)
  }

  const TransfersTip := "💡 Tip: Use filters to narrow results"

  function TransfersHeader(total: nat): string
  {
    "📋 **Transfers** (" + IntToString(total) + " found)\n\n"
  }

  /** `listTransfers(filters)`: always one list call; at most twenty rows and a trailer beyond that. */
  method ListTransfers(filters: Data, reply: Outcome<seq<Data>>, fmt: DateFormat) returns (h: Handled)
    ensures h.call == Some(Api.ListTransfers(Api.FetchLimit, filters))
    ensures reply.Threw? ==> h.result == Threw(reply.message)
    ensures reply.Returned? && |reply.value| == 0 ==> h.result == Returned("📋 No transfers found.")
    ensures reply.Returned? && |reply.value| > 0 ==>
      h.result == Returned(Listing(TransfersHeader(|reply.value|), reply.value, TransferRowOf(fmt),
                                   " more transfers.\n", TransfersTip))
  {
    var call := Api.ListTransfers(Api.FetchLimit, filters);
    if reply.Threw? {
      return Handled(Threw(reply.message), Some(call));
    }
    var transfers := reply.value;
    if |transfers| == 0 {
      return Handled(Returned("📋 No transfers found."), Some(call));
    }
    var totalTransfers := |transfers|;
    var remainingCount := totalTransfers - DisplayLimit;
    var response := RenderRows("📋 **Transfers** (" + IntToString(totalTransfers) + " found)\n\n",
                               transfers, TransferRowOf(fmt));
    if remainingCount > 0 {
      response := response + "\n... and " + IntToString(remainingCount) + " more transfers.\n";
      response := response + TransfersTip;
    }
    h := Handled(Returned(response), Some(call));
  }

  /**
   * The `switch` inside the `try` of `handleTransferCommand`: which step runs
   * for the action, and what it returned or threw.
   */
  method RunTransferAction(store: ConversationStore, ai: AiReply, room: RoomId, now: int,
                           answers: Api.Answers, fmt: DateFormat)
    returns (h: Handled)
    requires store.Valid()
    modifies store
    ensures store.Valid()
    ensures h.call.Some? ==> h.call.value.IsTransferCall()
    ensures h.call.Some? && h.call.value.IsCreate() ==> ai.action == Str("create_transfer")
    ensures store.conversations ==
      if ai.action == Str("create_transfer") && h.call.Some? then AfterClearCurrentAction(old(store.conversations), room, now)
      else old(store.conversations)
    ensures ai.action == Str("create_transfer") ==>
      && (!TransferComplete(ai.data) ==> h == Handled(Returned(TransferQuestion(ai.data, ai.message).value), None))
      && (TransferComplete(ai.data) ==> h.call == Some(Api.CreateTransfer(ai.data)))
      && (h.call.Some? && answers.record.Returned? ==>
            h.result == Returned(TransferCreatedText(answers.record.value, fmt)))
      && (h.call.Some? && answers.record.Threw? ==> h.result == Threw(answers.record.message))
    ensures ai.action == Str("get_transfer") ==> h == GetTransferDetails(Get(ai.data, "transfer_id"), answers.record, fmt)
    ensures ai.action == Str("list_transfers") ==>
      var records := answers.records;
      && h.call == Some(Api.ListTransfers(Api.FetchLimit, ai.data))
      && (records.Threw? ==> h.result == Threw(records.message))
      && (records.Returned? && |records.value| == 0 ==> h.result == Returned("📋 No transfers found."))
      && (records.Returned? && |records.value| > 0 ==>
            h.result == Returned(Listing(TransfersHeader(|records.value|), records.value, TransferRowOf(fmt),
                                         " more transfers.\n", TransfersTip)))
    ensures ai.action !in {Str("create_transfer"), Str("get_transfer"), Str("list_transfers")} ==>
      h == Handled(Returned(OrElse(ai.message, "❌ Unknown transfer action")), None)
  {
    if ai.action == Str("create_transfer") {
      h := CreateTransfer(store, ai.data, room, ai.message, now, answers.record, fmt);
    } else if ai.action == Str("get_transfer") {
      h := GetTransferDetails(Get(ai.data, "transfer_id"), answers.record, fmt);
    } else if ai.action == Str("list_transfers") {
      h := ListTransfers(ai.data, answers.records, fmt);
    } else {
      h := Handled(Returned(OrElse(ai.message, "❌ Unknown transfer action")), None);
    }
  }

  /**
   * `handleTransferCommand(aiResponse, sender, roomId)`: routes on the action
   * and turns anything thrown into the "Oops" reply.
   */
  method HandleTransferCommand(store: ConversationStore, ai: AiReply, room: RoomId, now: int,
                               answers: Api.Answers, fmt: DateFormat)
    returns (response: string, call: Option<Api.Request>)
    requires store.Valid()
    modifies store
    ensures store.Valid()
    ensures call.Some? ==> call.value.IsTransferCall()
    ensures call.Some? && call.value.IsCreate() ==> ai.action == Str("create_transfer")
    ensures store.conversations ==
      if ai.action == Str("create_transfer") && call.Some? then AfterClearCurrentAction(old(store.conversations), room, now)
      else old(store.conversations)
    ensures ai.action == Str("create_transfer") ==>
      && (!TransferComplete(ai.data) ==> response == TransferQuestion(ai.data, ai.message).value && call.None?)
      && (TransferComplete(ai.data) ==> call == Some(Api.CreateTransfer(ai.data)))
      && (call.Some? && answers.record.Returned? ==> response == TransferCreatedText(answers.record.value, fmt))
      && (call.Some? && answers.record.Threw? ==> response == OopsPrefix + answers.record.message)
    ensures ai.action == Str("get_transfer") ==>
      var h := GetTransferDetails(Get(ai.data, "transfer_id"), answers.record, fmt);
      response == Caught(h.result) && call == h.call
    ensures ai.action == Str("list_transfers") ==>
      var records := answers.records;
      && call == Some(Api.ListTransfers(Api.FetchLimit, ai.data))
      && (records.Threw? ==> response == OopsPrefix + records.message)
      && (records.Returned? && |records.value| == 0 ==> response == "📋 No transfers found.")
      && (records.Returned? && |records.value| > 0 ==>
            response == Listing(TransfersHeader(|records.value|), records.value, TransferRowOf(fmt),
                                " more transfers.\n", TransfersTip))
    ensures ai.action !in {Str("create_transfer"), Str("get_transfer"), Str("list_transfers")} ==>
      response == OrElse(ai.message, "❌ Unknown transfer action") && call.None?
  {
    var h := RunTransferAction(store, ai, room, now, answers, fmt);
    response := Caught(h.result);
    call := h.call;
  }
}
