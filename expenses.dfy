/**
 * The expense commands: record an expense once its amount and description
 * are known, show one expense, and list expenses.
 */
module ExpenseHandler {
  import opened Js
  import opened ConversationState
  import opened AiService
  import Api = OrderSystemApi
  import opened HandlerCommon

  const RequiredExpenseFields := ["amount", "description"]

  /** The confirmation shown after the record system stored the expense: its id, then its amount and currency. */
  function ExpenseCreatedText(expense: Data, fmt: DateFormat): (text: string)
    ensures "✅ **Great! Expense Recorded Successfully!**\n\n📝 Expense ID: #" + ToText(Get(expense, "id")) +
      "\n💰 Amount: " + ToText(Get(expense, "amount")) + " " + CurrencyLabel(Get(expense, "currencyCode")) <= text
  {
    var opening := "✅ **Great! Expense Recorded Successfully!**\n\n📝 Expense ID: #" + ToText(Get(expense, "id")) +
      "\n💰 Amount: " + ToText(Get(expense, "amount")) + " " + CurrencyLabel(Get(expense, "currencyCode"));
    opening +
    ("\n📄 Description: " + ToText(Get(expense, "description")) +
     "\n🏦 Account: " + OrElse(Get(expense, "accountName"), "Default") +
     "\n📅 Date: " + fmt.localeString(Get(expense, "createdAt")) +
     "\n\nAnything else I can help with?")
  }

  /**
   * `createExpense(expenseData, roomId, message)`: with the amount or the
   * description missing nothing is called and nothing changes; otherwise the
   * expense is sent as the AI gave it and the room's action is cleared
   * whether the call succeeded or threw.
   */
  method CreateExpense(store: ConversationStore, expenseData: Data, room: RoomId, conversationalMessage: Value,
                       now: int, reply: Outcome<Data>, fmt: DateFormat)
    returns (h: Handled)
    requires store.Valid()
    modifies store
    ensures store.Valid()
    ensures var missing := MissingFields(expenseData, RequiredExpenseFields);
      && (missing != [] ==> h == Handled(Returned(OrElse(conversationalMessage, StillNeed(missing))), None))
      && (missing == [] ==> h.call == Some(Api.CreateExpense(expenseData)))
    ensures h.call.Some? && reply.Returned? ==> h.result == Returned(ExpenseCreatedText(reply.value, fmt))
    ensures h.call.Some? && reply.Threw? ==> h.result == Threw(reply.message)
    ensures store.conversations ==
      if h.call.Some? then AfterClearCurrentAction(old(store.conversations), room, now) else old(store.conversations)
  {
    var missingFields := MissingFields(expenseData, RequiredExpenseFields);
    if |missingFields| > 0 {
      return Handled(Returned(OrElse(conversationalMessage, StillNeed(missingFields))), None);
    }
    var call := Api.CreateExpense(expenseData);
    match reply
    case Returned(expense) =>
      store.ClearCurrentAction(room, now);
      h := Handled(Returned(ExpenseCreatedText(expense, fmt)), Some(call));
    case Threw(message) =>
      store.ClearCurrentAction(room, now);
      h := Handled(Threw(message), Some(call));
  }

  /** Both fields present is exactly when the expense is sent. */
  lemma ExpenseNeedsAmountAndDescription(expenseData: Data)
    ensures MissingFields(expenseData, RequiredExpenseFields) == [] <==>
      Truthy(Get(expenseData, "amount")) && Truthy(Get(expenseData, "description"))
  {
    if MissingFields(expenseData, RequiredExpenseFields) == [] {
      assert "amount" in RequiredExpenseFields && "description" in RequiredExpenseFields;
    } else {
      var f := MissingFields(expenseData, RequiredExpenseFields)[0];
      assert f in MissingFields(expenseData, RequiredExpenseFields);
    }
  }

  /**
   * The details of one expense: they open with its id, amount and currency;
   * the last line names its creator when known and is empty otherwise.
   */
  function ExpenseDetailsText(expense: Data, fmt: DateFormat): (text: string)
    ensures "📋 **Expense #" + ToText(Get(expense, "id")) + " Details**\n\n💰 Amount: " + ToText(Get(expense, "amount")) +
      " " + CurrencyLabel(Get(expense, "currencyCode")) <= text
    ensures var creator := Get(expense, "createdByName");
      && (Truthy(creator) ==> var line := "👤 Created by: " + ToText(creator);
            |line| <= |text| && text[|text| - |line|..] == line)
      && (!Truthy(creator) ==> 0 < |text| && text[|text| - 1] == '\n')
  {
    var opening := "📋 **Expense #" + ToText(Get(expense, "id")) + " Details**\n\n💰 Amount: " +
      ToText(Get(expense, "amount")) + " " + CurrencyLabel(Get(expense, "currencyCode"));
    WithLastLine(
      opening +
      ("\n📄 Description: " + ToText(Get(expense, "description")) +
       "\n🏦 Account: " + OrElse(Get(expense, "accountName"), "N/A") +
       "\n📅 Created: " + fmt.localeString(Get(expense, "createdAt"))),
      Get(expense, "createdByName"), "👤 Created by: ")
  }

  function ExpenseDetailsOf(fmt: DateFormat): Data -> string
  {
    expense => ExpenseDetailsText(expense, fmt)
  }

  /** `getExpenseDetails(expenseId)`: no call without a usable id. */
  function GetExpenseDetails(expenseId: Value, reply: Outcome<Data>, fmt: DateFormat): (h: Handled)
    ensures h.call.None? <==> !CheckId(expenseId).GoodId?
    ensures h.call.Some? ==> h.call.value == Api.GetExpense(CheckId(expenseId).id)
    ensures !Truthy(expenseId) ==> h.result == Returned("❌ Please provide an expense ID (e.g., \"show expense #45\").")
    ensures CheckId(expenseId).BadId? ==> h.result == Returned("❌ Invalid expense ID.")
    ensures h.call.Some? && reply.Returned? ==> h.result == Returned(ExpenseDetailsText(reply.value, fmt))
    ensures h.call.Some? && reply.Threw? ==> h.result == Threw(reply.message)
  {
    Lookup(expenseId, "❌ Please provide an expense ID (e.g., \"show expense #45\").", "❌ Invalid expense ID.",
           id => Api.GetExpense(id), reply, ExpenseDetailsOf(fmt))
  }

  /** One expense's line in the list: it opens with the id and shows the amount and currency. */
  function ExpenseRow(fmt: DateFormat, expense: Data): (row: string)
    ensures "#" + ToText(Get(expense, "id")) + " " <= row && row[|row| - 1] == '\n'
    ensures Contains(row, ToText(Get(expense, "amount")) + " " + CurrencyLabel(Get(expense, "currencyCode")))
  {
    var before := fmt.monthDay(Get(expense, "createdAt")) + ": " + ToText(Get(expense, "description")) + " - ";
    var amount := ToText(Get(expense, "amount")) + " " + CurrencyLabel(Get(expense, "currencyCode"));
    var after :=
      (if Truthy(Get(expense, "accountName")) then " | 🏦" + ToText(Get(expense, "accountName")) else "") +
      (if Truthy(Get(expense, "createdByName")) then " | ✍️" + ToText(Get(expense, "createdByName")) else "");
    RecordLineShows(Get(expense, "id"), before, amount, after);
    RecordLine(Get(expense, "id"), before + amount + after)
  }

  function ExpenseRowOf(fmt: DateFormat): Data -> string
  {
    expense => ExpenseRow(fmt, expense)
  }

  const ExpensesTip := "💡 Tip: Use filters to narrow results"

  function ExpensesHeader(total: nat): string
  {
    "📋 **Expenses** (" + IntToString(total) + " found)\n\n"
  }

  /** `listExpenses(filters)`: always one list call; at most twenty rows and a trailer beyond that. */
  method ListExpenses(filters: Data, reply: Outcome<seq<Data>>, fmt: DateFormat) returns (h: Handled)
    ensures h.call == Some(Api.ListExpenses(Api.FetchLimit, filters))
    ensures reply.Threw? ==> h.result == Threw(reply.message)
    ensures reply.Returned? && |reply.value| == 0 ==> h.result == Returned("📋 No expenses found.")
    ensures reply.Returned? && |reply.value| > 0 ==>
      h.result == Returned(Listing(ExpensesHeader(|reply.value|), reply.value, ExpenseRowOf(fmt),
                                   " more expenses.\n", ExpensesTip))
  {
    var call := Api.ListExpenses(Api.FetchLimit, filters);
    if reply.Threw? {
      return Handled(Threw(reply.message), Some(call));
    }
    var expenses := reply.value;
    if |expenses| == 0 {
      return Handled(Returned("📋 No expenses found."), Some(call));
    }
    var totalExpenses := |expenses|;
    var remainingCount := totalExpenses - DisplayLimit;
    var response := RenderRows("📋 **Expenses** (" + IntToString(totalExpenses) + " found)\n\n",
                               expenses, ExpenseRowOf(fmt));
    if remainingCount > 0 {
      response := response + "\n... and " + IntToString(remainingCount) + " more expenses.\n";
      response := response + ExpensesTip;
    }
    h := Handled(Returned(response), Some(call));
  }

  /**
   * The `switch` inside the `try` of `handleExpenseCommand`: which step runs
   * for the action, and what it returned or threw.
   */
  method RunExpenseAction(store: ConversationStore, ai: AiReply, room: RoomId, now: int,
                          answers: Api.Answers, fmt: DateFormat)
    returns (h: Handled)
    requires store.Valid()
    modifies store
    ensures store.Valid()
    ensures h.call.Some? ==> h.call.value.IsExpenseCall()
    ensures h.call.Some? && h.call.value.IsCreate() ==> ai.action == Str("create_expense")
    ensures store.conversations ==
      if ai.action == Str("create_expense") && h.call.Some? then AfterClearCurrentAction(old(store.conversations), room, now)
      else old(store.conversations)
    ensures ai.action == Str("create_expense") ==>
      var missing := MissingFields(ai.data, RequiredExpenseFields);
      && (missing != [] ==> h == Handled(Returned(OrElse(ai.message, StillNeed(missing))), None))
      && (missing == [] ==> h.call == Some(Api.CreateExpense(ai.data)))
      && (h.call.Some? && answers.record.Returned? ==>
            h.result == Returned(ExpenseCreatedText(answers.record.value, fmt)))
      && (h.call.Some? && answers.record.Threw? ==> h.result == Threw(answers.record.message))
    ensures ai.action == Str("get_expense") ==> h == GetExpenseDetails(Get(ai.data, "expense_id"), answers.record, fmt)
    ensures ai.action == Str("list_expenses") ==>
      var records := answers.records;
      && h.call == Some(Api.ListExpenses(Api.FetchLimit, ai.data))
      && (records.Threw? ==> h.result == Threw(records.message))
      && (records.Returned? && |records.value| == 0 ==> h.result == Returned("📋 No expenses found."))
      && (records.Returned? && |records.value| > 0 ==>
            h.result == Returned(Listing(ExpensesHeader(|records.value|), records.value, ExpenseRowOf(fmt),
                                         " more expenses.\n", ExpensesTip)))
    ensures ai.action !in {Str("create_expense"), Str("get_expense"), Str("list_expenses")} ==>
      h == Handled(Returned(OrElse(ai.message, "❌ Unknown expense action")), None)
  {
    if ai.action == Str("create_expense") {
      h := CreateExpense(store, ai.data, room, ai.message, now, answers.record, fmt);
    } else if ai.action == Str("get_expense") {
      h := GetExpenseDetails(Get(ai.data, "expense_id"), answers.record, fmt);
    } else if ai.action == Str("list_expenses") {
      h := ListExpenses(ai.data, answers.records, fmt);
    } else {
      h := Handled(Returned(OrElse(ai.message, "❌ Unknown expense action")), None);
    }
  }

  /**
   * `handleExpenseCommand(aiResponse, sender, roomId)`: routes on the action
   * and turns anything thrown into the "Oops" reply.
   */
  method HandleExpenseCommand(store: ConversationStore, ai: AiReply, room: RoomId, now: int,
                              answers: Api.Answers, fmt: DateFormat)
    returns (response: string, call: Option<Api.Request>)
    requires store.Valid()
    modifies store
    ensures store.Valid()
    ensures call.Some? ==> call.value.IsExpenseCall()
    ensures call.Some? && call.value.IsCreate() ==> ai.action == Str("create_expense")
    ensures store.conversations ==
      if ai.action == Str("create_expense") && call.Some? then AfterClearCurrentAction(old(store.conversations), room, now)
      else old(store.conversations)
    ensures ai.action == Str("create_expense") ==>
      var missing := MissingFields(ai.data, RequiredExpenseFields);
      && (missing != [] ==> response == OrElse(ai.message, StillNeed(missing)) && call.None?)
      && (missing == [] ==> call == Some(Api.CreateExpense(ai.data)))
      && (call.Some? && answers.record.Returned? ==> response == ExpenseCreatedText(answers.record.value, fmt))
      && (call.Some? && answers.record.Threw? ==> response == OopsPrefix + answers.record.message)
    ensures ai.action == Str("get_expense") ==>
      var h := GetExpenseDetails(Get(ai.data, "expense_id"), answers.record, fmt);
      response == Caught(h.result) && call == h.call
    ensures ai.action == Str("list_expenses") ==>
      var records := answers.records;
      && call == Some(Api.ListExpenses(Api.FetchLimit, ai.data))
      && (records.Threw? ==> response == OopsPrefix + records.message)
      && (records.Returned? && |records.value| == 0 ==> response == "📋 No expenses found.")
      && (records.Returned? && |records.value| > 0 ==>
            response == Listing(ExpensesHeader(|records.value|), records.value, ExpenseRowOf(fmt),
                                " more expenses.\n", ExpensesTip))
    ensures ai.action !in {Str("create_expense"), Str("get_expense"), Str("list_expenses")} ==>
      response == OrElse(ai.message, "❌ Unknown expense action") && call.None?
  {
    var h := RunExpenseAction(store, ai, room, now, answers, fmt);
    response := Caught(h.result);
    call := h.call;
  }
}
