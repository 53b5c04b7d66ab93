/**
 * The entry point of the bot: one incoming chat message is recorded, the
 * help and cancel commands are answered directly, a create action that a
 * non-admin has in progress is stopped, and otherwise the language model is
 * asked what the user wants and its answer is either a follow-up question
 * or an action routed to the order, expense or transfer commands. Creating
 * records is reserved to admins.
 */
module MessageHandler {
  import opened Js
  import opened ConversationState
  import opened UserMapping
  import opened AiService
  import Api = OrderSystemApi
  import opened HandlerCommon
  import OrderHandler
  import ExpenseHandler
  import TransferHandler

  // ---------------------------------------------------------------------
  // Help
  // ---------------------------------------------------------------------

  const HelpHead :=
    "📋 **Order System Bot - Available Commands**\n"
    + "\n"
    + "**📦 Orders:**\n"
    + "• Check status: \"What's the status of order #123?\"\n"
    + "• List recent orders: \"Show me recent orders\"\n"
    + "• Search orders: \"Show orders for customer John\"\n"
    + "\n"
    + "**💰 Expenses:**\n"
    + "• Check expense: \"Show expense #45\"\n"
    + "• List expenses: \"Show recent expenses\"\n"
    + "\n"
    + "**🔄 Transfers:**\n"
    + "• Check transfer: \"Status of transfer #67\"\n"
    + "• List transfers: \"Show recent transfers\""

  const AdminCommands :=
    "\n"
    + "\n"
    + "**🔧 Admin Commands (Testing):**\n"
    + "• Create order: \"Create order for John, buy 500 USDT sell 520 USD, rate 1.04\"\n"
    + "• Add expense: \"Add expense: Office supplies, $50 from Account Main\"\n"
    + "• Create transfer: \"Transfer $1000 from Account A to Account B\"\n"
    + "• Complete order: \"Complete order #123\"\n"

  const HelpTail :=
    "\n"
    + "\n"
    + "**💡 Tips:**\n"
    + "• Just type naturally, I'll understand!\n"
    + "• Type 'help' anytime to see this message\n"
    + "• To create orders/expenses/transfers, please use the web system\n"
    + "\n"
    + "🤖 Powered by AI - I learn from your messages!\n"

  /** `getHelpMessage(isAdminUser)`: the command list, with the admin section for admins only. */
  function HelpMessage(isAdminUser: bool): (r: string)
    ensures |r| == |HelpHead| + |HelpTail| + (if isAdminUser then |AdminCommands| else 0)
    ensures r[..|HelpHead|] == HelpHead && r[|r| - |HelpTail|..] == HelpTail
    ensures isAdminUser ==> r[|HelpHead|..|HelpHead| + |AdminCommands|] == AdminCommands
  {
    HelpHead + (if isAdminUser then AdminCommands else "") + HelpTail
  }

  /** An admin's help is a non-admin's help with the admin section inserted, and nothing else differs. */
  lemma AdminHelpExtendsHelp()
    ensures HelpMessage(true) ==
      HelpMessage(false)[..|HelpHead|] + AdminCommands + HelpMessage(false)[|HelpHead|..]
  {
    var plain := HelpMessage(false);
    assert plain[..|HelpHead|] == HelpHead;
    assert plain[|HelpHead|..] == HelpTail;
  }

  // ---------------------------------------------------------------------
  // Commands answered without the model
  // ---------------------------------------------------------------------

  /** `message.toLowerCase().trim()` */
  function Normalized(message: string): string
  {
    Trim(ToLower(message))
  }

  /** `help` or `!help`, in any case and with any surrounding white space; never also a cancel word. */
  predicate IsHelpCommand(message: string)
    ensures IsHelpCommand(message) ==> !IsCancelCommand(message) && |message| >= 4
  {
    Normalized(message) == "help" || Normalized(message) == "!help"
  }

  const CancelWords: seq<string> := ["cancel", "reset", "start over", "clear"]

  /** One of the cancel words, in any case and with any surrounding white space. */
  predicate IsCancelCommand(message: string)
    ensures IsCancelCommand(message) ==> |message| >= 5
  {
    Normalized(message) in CancelWords
  }

  const CancelReply := "Okay, I've cleared everything. What would you like to do?"

  /** Lower-casing twice changes nothing more than lower-casing once. */
  lemma ToLowerIsIdempotent(s: string)
    ensures ToLower(ToLower(s)) == ToLower(s)
  {
    var once := ToLower(s);
    forall i | 0 <= i < |s|
      ensures ToLower(once)[i] == once[i]
    {
      assert !IsUpperLetter(once[i]);
    }
  }

  /** Both commands ignore letter case: a message and its lower-case form are the same command. */
  lemma CommandsIgnoreCase(message: string)
    ensures IsHelpCommand(message) <==> IsHelpCommand(ToLower(message))
    ensures IsCancelCommand(message) <==> IsCancelCommand(ToLower(message))
  {
    ToLowerIsIdempotent(message);
  }

  // ---------------------------------------------------------------------
  // Actions
  // ---------------------------------------------------------------------

  /** `['create_order', 'create_expense', 'create_transfer']` */
  const CreateActions: seq<string> := ["create_order", "create_expense", "create_transfer"]

  predicate IsCreateAction(a: string)
  {
    a in CreateActions
  }

  /** `aiResponse.action` is one of the create actions. */
  predicate IsCreateValue(v: Value)
  {
    v.Str? && IsCreateAction(v.s)
  }

  /** `currentAction && createActions.includes(currentAction)` */
  predicate PendingCreate(a: Option<string>)
  {
    a.Some? && IsCreateAction(a.value)
  }

  /** The action is truthy: present and not the empty string. */
  predicate Present(a: Option<string>)
  {
    a.Some? && a.value != ""
  }

  /** A create action is always a truthy one. */
  lemma PendingCreateIsPresent(a: Option<string>)
    ensures PendingCreate(a) ==> Present(a)
  {
    if PendingCreate(a) {
      assert a.value in CreateActions;
    }
  }

  /**
   * The create action a question from the model announces, read from its
   * lower-cased wording; a mention of "transfer" anywhere counts.
   */
  function ActionFromWording(lowerMsg: string): (r: Option<string>)
    ensures r.Some? ==> IsCreateAction(r.value)
    ensures Contains(lowerMsg, "create order") ==> r == Some("create_order")
    ensures Contains(lowerMsg, "transfer") ==> r.Some?
    ensures r.None? <==>
      !Contains(lowerMsg, "help you create an order") && !Contains(lowerMsg, "create order") &&
      !Contains(lowerMsg, "create an expense") && !Contains(lowerMsg, "add expense") &&
      !Contains(lowerMsg, "create a transfer") && !Contains(lowerMsg, "transfer")
  {
    if Contains(lowerMsg, "help you create an order") || Contains(lowerMsg, "create order") then Some("create_order")
    else if Contains(lowerMsg, "create an expense") || Contains(lowerMsg, "add expense") then Some("create_expense")
    else if Contains(lowerMsg, "create a transfer") || Contains(lowerMsg, "transfer") then Some("create_transfer")
    else None
  }

  /** The wording "create a transfer" is already covered by the wording "transfer". */
  lemma {:induction false} TransferWordingSubsumes(s: string)
    ensures Contains(s, "create a transfer") ==> Contains(s, "transfer")
  {
    if "create a transfer" <= s {
      assert s[9..17] == "create a transfer"[9..17];
      ContainsAt(s, "transfer", 9);
    } else if s != [] {
      TransferWordingSubsumes(s[1..]);
    }
  }

  /** `guessActionFromData(data)`: which record the extracted fields look like. */
  function GuessActionFromData(d: Data): (r: Option<string>)
    ensures r.Some? ==> IsCreateAction(r.value)
    ensures r == Some("create_order") <==>
      Truthy(Get(d, "fromCurrency")) || Truthy(Get(d, "toCurrency")) || Truthy(Get(d, "rate"))
    ensures r == Some("create_expense") ==> !Truthy(Get(d, "fromAccountName"))
    ensures r == Some("create_transfer") ==>
      Truthy(Get(d, "fromAccountName")) || Truthy(Get(d, "toAccountName"))
    ensures r.None? <==>
      !Truthy(Get(d, "fromCurrency")) && !Truthy(Get(d, "toCurrency")) && !Truthy(Get(d, "rate")) &&
      !(Truthy(Get(d, "description")) && Truthy(Get(d, "amount"))) &&
      !Truthy(Get(d, "fromAccountName")) && !Truthy(Get(d, "toAccountName"))
  {
    if Truthy(Get(d, "fromCurrency")) || Truthy(Get(d, "toCurrency")) || Truthy(Get(d, "rate")) then
      Some("create_order")
    else if Truthy(Get(d, "description")) && Truthy(Get(d, "amount")) && !Truthy(Get(d, "fromAccountName")) then
      Some("create_expense")
    else if Truthy(Get(d, "fromAccountName")) || Truthy(Get(d, "toAccountName")) then
      Some("create_transfer")
    else None
  }

  /** The error a non-string question text raises at `aiResponse.message.toLowerCase()`. */
  const MessageTypeError := "aiResponse.message.toLowerCase is not a function"

  /**
   * The action a question from the model is taken to be about: the action
   * in progress if any; otherwise the one its wording announces; otherwise,
   * when it extracted data, the one that data looks like.
   */
  function QuestionAction(currentAction: Option<string>, ai: AiReply): (r: Outcome<Option<string>>)
    ensures r.Threw? <==> !Present(currentAction) && Truthy(ai.message) && !ai.message.Str?
    ensures r.Threw? ==> r.message == MessageTypeError
    ensures Present(currentAction) ==> r == Returned(currentAction)
    ensures r.Returned? && Present(r.value) && !Present(currentAction) ==> IsCreateAction(r.value.value)
    ensures r.Returned? && !Present(currentAction) && |ai.data| > 0 && !Truthy(ai.message) ==>
      r.value == GuessActionFromData(ai.data)
  {
    if Present(currentAction) then Returned(currentAction)
    else if Truthy(ai.message) && !ai.message.Str? then Threw(MessageTypeError)
    else
      var worded := if Truthy(ai.message) then ActionFromWording(ToLower(ai.message.s)) else None;
      var actionType := if worded.Some? then worded else currentAction;
      Returned(if |ai.data| > 0 && !Present(actionType) then GuessActionFromData(ai.data) else actionType)
  }

  const MoreDetails := "Could you provide more details?"

  /**
   * The `ask_question` branch: work out the action, stop a non-admin who is
   * about to create a record, remember the action with the data the model
   * extracted, and pass the question on.
   */
  method AnswerQuestion(store: ConversationStore, currentAction: Option<string>, ai: AiReply, userIsAdmin: bool,
                        room: RoomId, now: int)
    returns (result: Outcome<string>)
    requires store.Valid()
    modifies store
    ensures store.Valid()
    ensures QuestionAction(currentAction, ai).Threw? ==>
      result == Threw(MessageTypeError) && store.conversations == old(store.conversations)
    ensures QuestionAction(currentAction, ai).Returned? && PendingCreate(QuestionAction(currentAction, ai).value) &&
            !userIsAdmin ==>
      var msg := GetNonAdminMessage(QuestionAction(currentAction, ai).value.value);
      result == Returned(msg) &&
      store.conversations ==
        AfterAddMessage(AfterClearCurrentAction(old(store.conversations), room, now), room, Assistant, msg, now)
    ensures QuestionAction(currentAction, ai).Returned? &&
            !(PendingCreate(QuestionAction(currentAction, ai).value) && !userIsAdmin) ==>
      var actionType := QuestionAction(currentAction, ai).value;
      var msg := OrElse(ai.message, MoreDetails);
      result == Returned(msg) &&
      store.conversations ==
        AfterAddMessage(
          if Present(actionType) && |ai.data| > 0 then
            AfterSetCurrentAction(old(store.conversations), room, actionType.value, ai.data, now)
          else old(store.conversations),
          room, Assistant, msg, now)
  {
    var actionType := currentAction;
    if !Present(actionType) && Truthy(ai.message) {
      if !ai.message.Str? {
        return Threw(MessageTypeError);
      }
      var lowerMsg := ToLower(ai.message.s);
      var worded := ActionFromWording(lowerMsg);
      if worded.Some? {
        actionType := worded;
      }
    }
    if |ai.data| > 0 && !Present(actionType) {
      actionType := GuessActionFromData(ai.data);
    }
    assert QuestionAction(currentAction, ai) == Returned(actionType);

    if PendingCreate(actionType) && !userIsAdmin {
      store.ClearCurrentAction(room, now);
      var msg := GetNonAdminMessage(actionType.value);
      store.AddMessage(room, Assistant, msg, now);
      return Returned(msg);
    }
    if Present(actionType) && |ai.data| > 0 {
      store.SetCurrentAction(room, actionType.value, ai.data, now);
    }
    var msg := OrElse(ai.message, MoreDetails);
    store.AddMessage(room, Assistant, msg, now);
    result := Returned(msg);
  }

  // ---------------------------------------------------------------------
  // Routing an action
  // ---------------------------------------------------------------------

  predicate IsOrderAction(v: Value)
  {
    v == Str("create_order") || v == Str("get_order") || v == Str("complete_order") || v == Str("list_orders")
  }

  predicate IsExpenseAction(v: Value)
  {
    v == Str("create_expense") || v == Str("get_expense") || v == Str("list_expenses")
  }

  predicate IsTransferAction(v: Value)
  {
    v == Str("create_transfer") || v == Str("get_transfer") || v == Str("list_transfers")
  }

  const NotSure :=
    "I'm not sure what you want to do. "
    + "I can help you check orders, view expenses, or review transfers. "
    + "What would you like to know?"

  /** The `switch` cases that hand the action to the order, expense or transfer commands. */
  method Dispatch(store: ConversationStore, tables: Tables, ai: AiReply, sender: Value, room: RoomId, now: int,
                  answers: Api.Answers, fmt: DateFormat)
    returns (response: string, call: Option<Api.Request>)
    requires store.Valid()
    requires IsOrderAction(ai.action) || IsExpenseAction(ai.action) || IsTransferAction(ai.action)
    modifies store
    ensures store.Valid()
    ensures store.conversations == old(store.conversations) ||
            store.conversations == AfterClearCurrentAction(old(store.conversations), room, now)
    ensures call.Some? && call.value.IsCreate() ==> IsCreateValue(ai.action)
    ensures call.Some? ==>
      (IsOrderAction(ai.action) && call.value.IsOrderCall()) ||
      (IsExpenseAction(ai.action) && call.value.IsExpenseCall()) ||
      (IsTransferAction(ai.action) && call.value.IsTransferCall())
  {
    if IsOrderAction(ai.action) {
      response, call := OrderHandler.HandleOrderCommand(store, tables, ai, sender, room, now, answers, fmt);
    } else if IsExpenseAction(ai.action) {
      response, call := ExpenseHandler.HandleExpenseCommand(store, ai, room, now, answers, fmt);
    } else {
      response, call := TransferHandler.HandleTransferCommand(store, ai, room, now, answers, fmt);
    }
  }

  /**
   * Any other action: a non-admin asking to create gets the refusal and
   * loses the action in progress; otherwise the action goes to its command
   * handler, or is the help, or falls back to the model's own text.
   */
  method Route(store: ConversationStore, tables: Tables, ai: AiReply, sender: Value, room: RoomId, now: int,
               answers: Api.Answers, fmt: DateFormat)
    returns (response: string, call: Option<Api.Request>)
    requires store.Valid()
    modifies store
    ensures store.Valid()
    ensures store.conversations == old(store.conversations) ||
            store.conversations == AfterClearCurrentAction(old(store.conversations), room, now)
    ensures call.Some? && call.value.IsCreate() ==> IsAdmin(tables, sender)
    ensures IsCreateValue(ai.action) && !IsAdmin(tables, sender) ==>
      response == GetNonAdminMessage(ai.action.s) && call.None? &&
      store.conversations == AfterClearCurrentAction(old(store.conversations), room, now)
    ensures call.Some? ==>
      (IsOrderAction(ai.action) && call.value.IsOrderCall()) ||
      (IsExpenseAction(ai.action) && call.value.IsExpenseCall()) ||
      (IsTransferAction(ai.action) && call.value.IsTransferCall())
    ensures ai.action == Str("help") ==>
      response == HelpMessage(IsAdmin(tables, sender)) && call.None? &&
      store.conversations == old(store.conversations)
    ensures !IsOrderAction(ai.action) && !IsExpenseAction(ai.action) && !IsTransferAction(ai.action) &&
            ai.action != Str("help") ==>
      response == OrElse(ai.message, NotSure) && call.None? && store.conversations == old(store.conversations)
  {
    call := None;
    if IsCreateValue(ai.action) && !IsAdmin(tables, sender) {
      response := GetNonAdminMessage(ai.action.s);
      store.ClearCurrentAction(room, now);
    } else if IsOrderAction(ai.action) || IsExpenseAction(ai.action) || IsTransferAction(ai.action) {
      response, call := Dispatch(store, tables, ai, sender, room, now, answers, fmt);
    } else if ai.action == Str("help") {
      response := HelpMessage(IsAdmin(tables, sender));
    } else {
      response := OrElse(ai.message, NotSure);
    }
  }

  /**
   * The history is read after the message was recorded, so the newest entry
   * the model is sent is that message itself, ahead of the same text sent
   * once more as the user's turn.
   */
  lemma NewestEntryIsSent(messages: seq<ChatMessage>, history: seq<Entry>, stored: seq<Entry>, e: Entry)
    requires |stored| > 0 && stored[|stored| - 1] == e
    requires history == SliceFromEnd(stored, DefaultHistoryLimit)
    requires |messages| >= 2 + Min(HistoryWindow, |history|)
    requires forall i :: 1 <= i <= Min(HistoryWindow, |history|) ==>
      messages[i] == FromEntry(history[|history| - Min(HistoryWindow, |history|) + i - 1])
    ensures |messages| >= 3 && FromEntry(e) in messages
  {
    assert history == LastN(stored, 4);
    var m := Min(HistoryWindow, |history|);
    assert m == |history| >= 1;
    assert messages[m] == FromEntry(history[|history| - 1]);
  }

  // ---------------------------------------------------------------------
  // One incoming message
  // ---------------------------------------------------------------------

  /**
   * The model's answer acted on: its question is answered, any other action
   * is routed, and the reply is recorded. `currentAction` is the room's
   * action as read before the model was asked.
   */
  method Act(store: ConversationStore, tables: Tables, sender: Value, room: RoomId, now: int,
             currentAction: Option<string>, ai: AiReply, answers: Api.Answers, fmt: DateFormat)
    returns (result: Outcome<string>, call: Option<Api.Request>)
    requires store.Valid()
    requires currentAction == ActionOf(store.conversations, room)
    modifies store
    ensures store.Valid()
    ensures call.Some? ==> ai.action != Str("ask_question")
    ensures call.Some? && call.value.IsCreate() ==> IsAdmin(tables, sender)
    ensures !IsAdmin(tables, sender) && !PendingCreate(currentAction) ==>
      !PendingCreate(ActionOf(store.conversations, room))
    ensures result.Threw? ==> HistoryOf(store.conversations, room) == HistoryOf(old(store.conversations), room)
    ensures result.Returned? ==>
      HistoryOf(store.conversations, room) ==
        LastN(HistoryOf(old(store.conversations), room) + [Entry(Assistant, result.value, now)], HistoryCap)
    ensures forall k :: k != room ==>
      (k in store.conversations <==> k in old(store.conversations)) &&
      (k in old(store.conversations) ==> store.conversations[k] == old(store.conversations)[k])
  {
    if ai.action == Str("ask_question") {
      result := AnswerQuestion(store, currentAction, ai, IsAdmin(tables, sender), room, now);
      return result, None;
    }
    var response;
    response, call := Route(store, tables, ai, sender, room, now, answers, fmt);
    store.AddMessage(room, Assistant, response, now);
    result := Returned(response);
  }

  /**
   * Everything after the help and cancel commands: read the room's state,
   * stop a non-admin's create action in progress, otherwise ask the model
   * and answer its question or route its action; the reply is recorded.
   * The model's answer (or its failure) is `completion`, and `prompt` is
   * what was sent to it, if it was consulted.
   */
  method Converse(store: ConversationStore, tables: Tables, systemPrompt: string, message: string, sender: Value,
                  room: RoomId, now: int, dataJson: string, completion: Outcome<AiReply>,
                  answers: Api.Answers, fmt: DateFormat)
    returns (result: Outcome<string>, prompt: Option<seq<ChatMessage>>, call: Option<Api.Request>)
    requires store.Valid()
    modifies store
    ensures store.Valid()
    ensures PendingCreate(ActionOf(old(store.conversations), room)) && !IsAdmin(tables, sender) ==>
      result == Returned(GetNonAdminMessage(ActionOf(old(store.conversations), room).value)) &&
      prompt.None? && call.None? && ActionOf(store.conversations, room).None?
    ensures prompt.Some? <==> !(PendingCreate(ActionOf(old(store.conversations), room)) && !IsAdmin(tables, sender))
    ensures prompt.Some? ==> Framed(prompt.value, systemPrompt, message)
    ensures prompt.Some? && HistoryOf(old(store.conversations), room) != [] ==>
      var stored := HistoryOf(old(store.conversations), room);
      |prompt.value| >= 3 && FromEntry(stored[|stored| - 1]) in prompt.value
    ensures prompt.Some? && completion.Threw? ==>
      result == Threw(AiErrorPrefix + completion.message) && call.None?
    // A failed model call leaves the action and the collected data as they were.
    ensures prompt.Some? && completion.Threw? ==>
      ActionOf(store.conversations, room) == ActionOf(old(store.conversations), room) &&
      DataOf(store.conversations, room) == DataOf(old(store.conversations), room)
    ensures call.Some? ==> prompt.Some? && completion.Returned? && completion.value.action != Str("ask_question")
    ensures call.Some? && call.value.IsCreate() ==> IsAdmin(tables, sender)
    ensures !IsAdmin(tables, sender) ==> !PendingCreate(ActionOf(store.conversations, room))
    ensures result.Threw? ==> HistoryOf(store.conversations, room) == HistoryOf(old(store.conversations), room)
    ensures result.Returned? ==>
      HistoryOf(store.conversations, room) ==
        LastN(HistoryOf(old(store.conversations), room) + [Entry(Assistant, result.value, now)], HistoryCap)
    ensures forall k :: k != room ==>
      (k in store.conversations <==> k in old(store.conversations)) &&
      (k in old(store.conversations) ==> store.conversations[k] == old(store.conversations)[k])
  {
    ghost var stored := HistoryOf(store.conversations, room);
    var currentAction := store.GetCurrentAction(room, now);
    var collectedData := store.GetCollectedData(room, now);
    var history := store.GetHistoryForAI(room, DefaultHistoryLimit, now);
    var userIsAdmin := IsAdmin(tables, sender);

    if PendingCreate(currentAction) && !userIsAdmin {
      store.ClearCurrentAction(room, now);
      var msg := GetNonAdminMessage(currentAction.value);
      store.AddMessage(room, Assistant, msg, now);
      return Returned(msg), None, None;
    }

    var aiResponse, messages :=
      ProcessWithAI(systemPrompt, message, history, currentAction, collectedData, dataJson, completion);
    prompt := Some(messages);
    if stored != [] {
      NewestEntryIsSent(messages, history, stored, stored[|stored| - 1]);
    }
    if aiResponse.Threw? {
      return Threw(aiResponse.message), prompt, None;
    }

    result, call := Act(store, tables, sender, room, now, currentAction, aiResponse.value, answers, fmt);
  }

  /**
   * What follows once the message is recorded: help and cancel are answered
   * without the model; the rest is `Converse`.
   */
  method Reply(store: ConversationStore, tables: Tables, systemPrompt: string, message: string, sender: Value,
               room: RoomId, now: int, dataJson: string, completion: Outcome<AiReply>,
               answers: Api.Answers, fmt: DateFormat)
    returns (result: Outcome<string>, prompt: Option<seq<ChatMessage>>, call: Option<Api.Request>)
    requires store.Valid()
    modifies store
    ensures store.Valid()
    ensures IsHelpCommand(message) ==>
      result == Returned(HelpMessage(IsAdmin(tables, sender))) && prompt.None? && call.None? &&
      ActionOf(store.conversations, room) == ActionOf(old(store.conversations), room) &&
      DataOf(store.conversations, room) == DataOf(old(store.conversations), room)
    ensures !IsHelpCommand(message) && IsCancelCommand(message) ==>
      result == Returned(CancelReply) && prompt.None? && call.None? &&
      room in store.conversations && ActionOf(store.conversations, room).None? &&
      DataOf(store.conversations, room) == map[]
    ensures !IsHelpCommand(message) && !IsCancelCommand(message) &&
            PendingCreate(ActionOf(old(store.conversations), room)) && !IsAdmin(tables, sender) ==>
      result == Returned(GetNonAdminMessage(ActionOf(old(store.conversations), room).value)) &&
      prompt.None? && call.None? && ActionOf(store.conversations, room).None?
    ensures prompt.Some? <==>
      !IsHelpCommand(message) && !IsCancelCommand(message) &&
      !(PendingCreate(ActionOf(old(store.conversations), room)) && !IsAdmin(tables, sender))
    ensures prompt.Some? ==> Framed(prompt.value, systemPrompt, message)
    ensures prompt.Some? && HistoryOf(old(store.conversations), room) != [] ==>
      var stored := HistoryOf(old(store.conversations), room);
      |prompt.value| >= 3 && FromEntry(stored[|stored| - 1]) in prompt.value
    ensures prompt.Some? && completion.Threw? ==>
      result == Threw(AiErrorPrefix + completion.message) && call.None? &&
      ActionOf(store.conversations, room) == ActionOf(old(store.conversations), room) &&
      DataOf(store.conversations, room) == DataOf(old(store.conversations), room)
    ensures call.Some? ==> prompt.Some? && completion.Returned? && completion.value.action != Str("ask_question")
    ensures call.Some? && call.value.IsCreate() ==> IsAdmin(tables, sender)
    ensures !IsAdmin(tables, sender) && PendingCreate(ActionOf(store.conversations, room)) ==>
      IsHelpCommand(message) && ActionOf(store.conversations, room) == ActionOf(old(store.conversations), room)
    ensures result.Threw? ==> HistoryOf(store.conversations, room) == HistoryOf(old(store.conversations), room)
    ensures result.Returned? ==>
      HistoryOf(store.conversations, room) ==
        LastN(HistoryOf(old(store.conversations), room) + [Entry(Assistant, result.value, now)], HistoryCap)
    ensures forall k :: k != room ==>
      (k in store.conversations <==> k in old(store.conversations)) &&
      (k in old(store.conversations) ==> store.conversations[k] == old(store.conversations)[k])
  {
    if Normalized(message) == "help" || Normalized(message) == "!help" {
      var helpMsg := HelpMessage(IsAdmin(tables, sender));
      store.AddMessage(room, Assistant, helpMsg, now);
      return Returned(helpMsg), None, None;
    }

    if Normalized(message) in CancelWords {
      store.ClearCurrentAction(room, now);
      var msg := CancelReply;
      store.AddMessage(room, Assistant, msg, now);
      return Returned(msg), None, None;
    }

    result, prompt, call :=
      Converse(store, tables, systemPrompt, message, sender, room, now, dataJson, completion, answers, fmt);
  }

  /**
   * `handleMessage(message, sender, roomId, event)`: the message is recorded
   * first, then answered. `dataJson` is `JSON.stringify` of the collected
   * data and `answers` are the record system's answers.
   */
  method HandleMessage(store: ConversationStore, tables: Tables, systemPrompt: string, message: string, sender: Value,
                       room: RoomId, now: int, dataJson: string, completion: Outcome<AiReply>,
                       answers: Api.Answers, fmt: DateFormat)
    returns (result: Outcome<string>, prompt: Option<seq<ChatMessage>>, call: Option<Api.Request>)
    requires store.Valid()
    modifies store
    ensures store.Valid()
    ensures IsHelpCommand(message) ==>
      result == Returned(HelpMessage(IsAdmin(tables, sender))) && prompt.None? && call.None? &&
      ActionOf(store.conversations, room) == ActionOf(old(store.conversations), room) &&
      DataOf(store.conversations, room) == DataOf(old(store.conversations), room)
    ensures !IsHelpCommand(message) && IsCancelCommand(message) ==>
      result == Returned(CancelReply) && prompt.None? && call.None? &&
      room in store.conversations && ActionOf(store.conversations, room).None? &&
      DataOf(store.conversations, room) == map[]
    ensures !IsHelpCommand(message) && !IsCancelCommand(message) &&
            PendingCreate(ActionOf(old(store.conversations), room)) && !IsAdmin(tables, sender) ==>
      result == Returned(GetNonAdminMessage(ActionOf(old(store.conversations), room).value)) &&
      prompt.None? && call.None? && ActionOf(store.conversations, room).None?
    // The model is consulted exactly when none of the above applies.
    ensures prompt.Some? <==>
      !IsHelpCommand(message) && !IsCancelCommand(message) &&
      !(PendingCreate(ActionOf(old(store.conversations), room)) && !IsAdmin(tables, sender))
    ensures prompt.Some? ==>
      Framed(prompt.value, systemPrompt, message) && |prompt.value| >= 3 &&
      FromEntry(Entry(User, message, now)) in prompt.value
    ensures prompt.Some? && completion.Threw? ==>
      result == Threw(AiErrorPrefix + completion.message) && call.None? &&
      ActionOf(store.conversations, room) == ActionOf(old(store.conversations), room) &&
      DataOf(store.conversations, room) == DataOf(old(store.conversations), room)
    ensures call.Some? ==> prompt.Some? && completion.Returned? && completion.value.action != Str("ask_question")
    // Only admins create records, and a non-admin is never left with a create action in progress.
    ensures call.Some? && call.value.IsCreate() ==> IsAdmin(tables, sender)
    ensures !IsAdmin(tables, sender) && PendingCreate(ActionOf(store.conversations, room)) ==>
      IsHelpCommand(message) && ActionOf(store.conversations, room) == ActionOf(old(store.conversations), room)
    // The history gains the message and, unless something was thrown, the reply.
    ensures result.Threw? ==>
      HistoryOf(store.conversations, room) ==
        LastN(HistoryOf(old(store.conversations), room) + [Entry(User, message, now)], HistoryCap)
    ensures result.Returned? ==>
      HistoryOf(store.conversations, room) ==
        LastN(LastN(HistoryOf(old(store.conversations), room) + [Entry(User, message, now)], HistoryCap) +
              [Entry(Assistant, result.value, now)], HistoryCap)
    ensures forall k :: k != room ==>
      (k in store.conversations <==> k in old(store.conversations)) &&
      (k in old(store.conversations) ==> store.conversations[k] == old(store.conversations)[k])
  {
    store.AddMessage(room, User, message, now);
    ghost var stored := HistoryOf(store.conversations, room);
    assert stored[|stored| - 1] == Entry(User, message, now);
    result, prompt, call :=
      Reply(store, tables, systemPrompt, message, sender, room, now, dataJson, completion, answers, fmt);
  }
}
