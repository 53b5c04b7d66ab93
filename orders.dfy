/**
 * The order commands: create an order from the data the AI collected, show
 * one order, mark one complete, and list orders with a description of the
 * filters used. Creating clears the room's pending action once the record
 * system has been called, whether the call succeeded or threw.
 */
module OrderHandler {
  import opened Js
  import opened CurrencyKnowledge
  import opened ConversationState
  import opened UserMapping
  import opened AiService
  import Api = OrderSystemApi
  import opened HandlerCommon

  // ---------------------------------------------------------------------
  // createOrder
  // ---------------------------------------------------------------------

  const RequiredOrderFields := ["customerName", "fromCurrency", "toCurrency", "rate"]

  const AmountQuestion := "How much is the customer buying? (Or tell me how much they're selling)"

  const CalculationWarning :=
    "⚠️ I couldn't calculate the amounts. Please provide both buy and sell amounts, or check the rate."

  function BuyAccountQuestion(fromCurrency: Value): string
  {
    "Which account will receive the " + ToText(fromCurrency) + "? (e.g., Main Wallet, HSBC Account)"
  }

  function SellAccountQuestion(toCurrency: Value): string
  {
    "Which account will pay the " + ToText(toCurrency) + "? (e.g., Cash, Binance)"
  }

  /**
   * The first step of `createOrder`: only when neither currency is given is
   * `currencyPair` parsed, and then both currencies are set or neither is.
   */
  function ResolvePair(d: Data): (r: Outcome<Data>)
    ensures Truthy(Get(d, "fromCurrency")) || Truthy(Get(d, "toCurrency")) || !Truthy(Get(d, "currencyPair")) ==>
      r == Returned(d)
    ensures r.Threw? ==> r.message == PairTypeError
    ensures r.Returned? ==> forall k :: k != "fromCurrency" && k != "toCurrency" ==> Get(r.value, k) == Get(d, k)
    ensures r.Returned? && !Truthy(Get(d, "fromCurrency")) && !Truthy(Get(d, "toCurrency")) ==>
      (Truthy(Get(r.value, "fromCurrency")) <==> Truthy(Get(r.value, "toCurrency")))
    ensures r.Returned? && r.value != d ==>
      IsValidCurrency(Get(r.value, "fromCurrency")) && IsValidCurrency(Get(r.value, "toCurrency"))
  {
    if !Truthy(Get(d, "fromCurrency")) && !Truthy(Get(d, "toCurrency")) && Truthy(Get(d, "currencyPair")) then
      match ParseCurrencyPairOf(Get(d, "currencyPair"))
      case Threw(message) => Threw(message)
      case Returned(None) => Returned(d)
      case Returned(Some(pair)) =>
        CodeIsValidCurrency(pair.fromCurrency);
        CodeIsValidCurrency(pair.toCurrency);
        Returned(d["fromCurrency" := Str(pair.fromCurrency)]["toCurrency" := Str(pair.toCurrency)])
    else Returned(d)
  }

  /** The first step of `createOrder`, written as the source does it: two assignments into the data object. */
  method FillCurrenciesFromPair(orderData: Data) returns (r: Outcome<Data>)
    ensures r == ResolvePair(orderData)
  {
    var d := orderData;
    if !Truthy(Get(d, "fromCurrency")) && !Truthy(Get(d, "toCurrency")) && Truthy(Get(d, "currencyPair")) {
      var parsed := ParseCurrencyPairOf(Get(d, "currencyPair"));
      if parsed.Threw? {
        return Threw(parsed.message);
      }
      if parsed.value.Some? {
        d := d["fromCurrency" := Str(parsed.value.value.fromCurrency)];
        d := d["toCurrency" := Str(parsed.value.value.toCurrency)];
      }
    }
    r := Returned(d);
  }

  /** Where the checks of `createOrder` end before the record system is called. */
  datatype Prepared =
    | Ask(prompt: string)
    | Fail(error: string)
    | Submit(order: Data, handler: Option<SystemUser>)

  /** `a` and `b` have the same value under every key outside `keys`. */
  ghost predicate AgreeExcept(a: Data, b: Data, keys: set<string>)
  {
    forall k :: k !in keys ==> Get(a, k) == Get(b, k)
  }

  /** Enough is known to create the order: the four required fields, some amount, and both accounts. */
  predicate Complete(od: Data)
  {
    && MissingFields(od, RequiredOrderFields) == []
    && (Truthy(Get(od, "amountBuy")) || Truthy(Get(od, "amountSell")))
    && Truthy(Get(od, "buyAccount")) && Truthy(Get(od, "sellAccount"))
  }

  /**
   * The checks of `createOrder` in the source's order: the four required
   * fields, some amount, the buy account, the sell account. The first that
   * fails asks its question, unless the AI already wrote a message.
   */
  function FirstQuestion(od: Data, message: Value): (q: Option<string>)
    ensures q.None? <==> Complete(od)
    ensures MissingFields(od, RequiredOrderFields) != [] ==>
      q == Some(OrElse(message, StillNeed(MissingFields(od, RequiredOrderFields))))
    ensures (MissingFields(od, RequiredOrderFields) == [] &&
             !Truthy(Get(od, "amountBuy")) && !Truthy(Get(od, "amountSell"))) ==>
      q == Some(OrElse(message, AmountQuestion))
    ensures (MissingFields(od, RequiredOrderFields) == [] &&
             (Truthy(Get(od, "amountBuy")) || Truthy(Get(od, "amountSell"))) && !Truthy(Get(od, "buyAccount"))) ==>
      q == Some(OrElse(message, BuyAccountQuestion(Get(od, "fromCurrency"))))
    ensures (MissingFields(od, RequiredOrderFields) == [] &&
             (Truthy(Get(od, "amountBuy")) || Truthy(Get(od, "amountSell"))) && Truthy(Get(od, "buyAccount")) &&
             !Truthy(Get(od, "sellAccount"))) ==>
      q == Some(OrElse(message, SellAccountQuestion(Get(od, "toCurrency"))))
  {
    var missing := MissingFields(od, RequiredOrderFields);
    if missing != [] then Some(OrElse(message, StillNeed(missing)))
    else if !Truthy(Get(od, "amountBuy")) && !Truthy(Get(od, "amountSell")) then Some(OrElse(message, AmountQuestion))
    else if !Truthy(Get(od, "buyAccount")) then Some(OrElse(message, BuyAccountQuestion(Get(od, "fromCurrency"))))
    else if !Truthy(Get(od, "sellAccount")) then Some(OrElse(message, SellAccountQuestion(Get(od, "toCurrency"))))
    else None
  }

  /** With no AI message and only the customer and the rate missing, both are named, in the order of the required list. */
  lemma StillNeedNamesAllMissing(od: Data)
    requires !Truthy(Get(od, "customerName")) && !Truthy(Get(od, "rate"))
    requires Truthy(Get(od, "fromCurrency")) && Truthy(Get(od, "toCurrency"))
    ensures FirstQuestion(od, Undefined) == Some(StillNeed(["customerName", "rate"]))
  {
    var fields := RequiredOrderFields;
    assert MissingFields(od, fields[3..]) == ["rate"] by {
      assert fields[3..][1..] == [];
    }
    assert MissingFields(od, fields[2..]) == ["rate"] by {
      assert fields[2..][1..] == fields[3..];
    }
    assert MissingFields(od, fields[1..]) == ["rate"] by {
      assert fields[1..][1..] == fields[2..];
    }
    assert MissingFields(od, fields) == ["customerName", "rate"];
  }

  /** `orderType` defaults to `"online"`. */
  function WithDefaultType(d: Data): (r: Data)
    ensures Get(r, "orderType") == if Truthy(Get(d, "orderType")) then Get(d, "orderType") else Str("online")
    ensures AgreeExcept(r, d, {"orderType"})
  {
    if Truthy(Get(d, "orderType")) then d else d["orderType" := Str("online")]
  }

  /** A mapped sender becomes the order's handler; otherwise `handlerId` is left as it is. */
  function WithHandler(d: Data, user: Option<SystemUser>): (r: Data)
    ensures user.Some? ==> Get(r, "handlerId") == Num(user.value.userId as real)
    ensures user.None? ==> r == d
    ensures AgreeExcept(r, d, {"handlerId"})
  {
    match user
    case Some(u) => d["handlerId" := Num(u.userId as real)]
    case None => d
  }

  /** What `createOrder` does once the checks passed: the amounts, the default type, the handler. */
  function Finish(od: Data, sender: Value, tables: Tables): (r: Prepared)
    ensures !r.Ask? || r.prompt == CalculationWarning
    ensures r.Fail? ==> r.error == TypeErrorOnCode
    ensures r.Submit? ==>
      Truthy(Get(r.order, "amountBuy")) && Truthy(Get(r.order, "amountSell")) && Truthy(Get(r.order, "orderType"))
    ensures r.Submit? ==> r.handler == GetOrderSystemUser(tables, sender)
    ensures r.Submit? && r.handler.Some? ==> Get(r.order, "handlerId") == Num(r.handler.value.userId as real)
    ensures r.Submit? && r.handler.None? ==> Get(r.order, "handlerId") == Get(od, "handlerId")
    ensures r.Submit? ==>
      && CalculateAmounts(od).Returned?
      && Get(r.order, "amountBuy") == Get(CalculateAmounts(od).value, "amountBuy")
      && Get(r.order, "amountSell") == Get(CalculateAmounts(od).value, "amountSell")
    ensures r.Submit? ==>
      Get(r.order, "orderType") == if Truthy(Get(od, "orderType")) then Get(od, "orderType") else Str("online")
    ensures r.Submit? ==> AgreeExcept(r.order, od, {"amountBuy", "amountSell", "orderType", "handlerId"})
  {
    match CalculateAmounts(od)
    case Threw(error) => Fail(error)
    case Returned(calculated) => FinishCalculated(calculated, sender, tables)
  }

  /** The steps once the amounts are calculated: the default type, the check on both amounts, the handler. */
  function FinishCalculated(calculated: Data, sender: Value, tables: Tables): Prepared
  {
    var typed := WithDefaultType(calculated);
    if !Truthy(Get(typed, "amountBuy")) || !Truthy(Get(typed, "amountSell")) then Ask(CalculationWarning)
    else
      var user := GetOrderSystemUser(tables, sender);
      Submit(WithHandler(typed, user), user)
  }

  /** Given both amounts, the calculation keeps them and the order is submitted. */
  lemma FinishWithBothAmounts(od: Data, sender: Value, tables: Tables)
    requires Truthy(Get(od, "amountBuy")) && Truthy(Get(od, "amountSell"))
    requires Get(od, "fromCurrency").Str? && Get(od, "toCurrency").Str?
    ensures Finish(od, sender, tables).Submit?
    ensures Get(Finish(od, sender, tables).order, "amountBuy") == Get(od, "amountBuy")
    ensures Get(Finish(od, sender, tables).order, "amountSell") == Get(od, "amountSell")
  {
  }

  /**
   * The checks and the data preparation of `createOrder`, in the source's
   * order: the pair, the checks of `FirstQuestion`, then `Finish`.
   */
  function PrepareOrder(d: Data, message: Value, sender: Value, tables: Tables): (r: Prepared)
    ensures r.Fail? ==> r.error == PairTypeError || r.error == TypeErrorOnCode
    ensures r.Submit? ==> ResolvePair(d).Returned? && Complete(ResolvePair(d).value)
    ensures r.Submit? ==>
      Truthy(Get(r.order, "amountBuy")) && Truthy(Get(r.order, "amountSell")) && Truthy(Get(r.order, "orderType"))
    ensures r.Submit? ==> r.handler == GetOrderSystemUser(tables, sender)
    ensures r.Submit? && r.handler.Some? ==> Get(r.order, "handlerId") == Num(r.handler.value.userId as real)
    ensures r.Submit? && r.handler.None? ==> Get(r.order, "handlerId") == Get(d, "handlerId")
    ensures r.Submit? ==> var od := ResolvePair(d).value;
      && CalculateAmounts(od).Returned?
      && Get(r.order, "amountBuy") == Get(CalculateAmounts(od).value, "amountBuy")
      && Get(r.order, "amountSell") == Get(CalculateAmounts(od).value, "amountSell")
      && Get(r.order, "orderType") == (if Truthy(Get(od, "orderType")) then Get(od, "orderType") else Str("online"))
      && AgreeExcept(r.order, od, {"amountBuy", "amountSell", "orderType", "handlerId"})
  {
    match ResolvePair(d)
    case Threw(error) => Fail(error)
    case Returned(od) =>
      match FirstQuestion(od, message)
      case Some(question) => Ask(question)
      case None => Finish(od, sender, tables)
  }

  /** The handler line of the confirmation: the mapped user's name, or "Unassigned" when the sender is not mapped. */
  function HandlerLine(user: Option<SystemUser>): (line: string)
    ensures user.Some? ==> line == "\n👨‍💼 Handler: " + user.value.name + "\n"
    ensures user.None? ==> line == "\n👨‍💼 Handler: Unassigned\n"
  {
    "\n👨‍💼 Handler: " + (match user
      case Some(u) => u.name
      case None => "Unassigned") + "\n"
  }

  function OrderCreatedOpening(order: Data): string
  {
    "✅ Perfect! Order Created Successfully!\n\n📝 Order ID: #" + ToText(Get(order, "id")) + "\n"
  }

  function OrderCreatedBody(order: Data, submitted: Data): string
  {
    "👤 Customer: " + ToText(Get(order, "customerName")) +
    "\n💱 Pair: " + FormatCurrencyPair(Get(order, "fromCurrency"), Get(order, "toCurrency")) +
    "\n📊 Rate: " + ToText(Get(order, "rate")) +
    "\n💵 Buy: " + ToText(Get(order, "amountBuy")) + " " + ToText(Get(order, "fromCurrency")) +
    " → " + ToText(Get(submitted, "buyAccount")) +
    "\n💸 Sell: " + ToText(Get(order, "amountSell")) + " " + ToText(Get(order, "toCurrency")) +
    " → " + ToText(Get(submitted, "sellAccount")) +
    "\n📦 Type: " + ToText(Get(order, "orderType"))
  }

  function OrderCreatedTail(order: Data, fmt: DateFormat): string
  {
    "📅 Created: " + fmt.localeString(Get(order, "createdAt")) +
    "\n✅ Status: " + ToText(Get(order, "status")) +
    "\n\nIs there anything else I can help you with?"
  }

  /** The confirmation shown after the record system created the order. */
  function OrderCreatedText(order: Data, submitted: Data, user: Option<SystemUser>, fmt: DateFormat): string
  {
    OrderCreatedOpening(order) + OrderCreatedBody(order, submitted) + HandlerLine(user) + OrderCreatedTail(order, fmt)
  }

  /**
   * The Handler line names the order system user mapped to the sender, or
   * says "Unassigned" when the sender has no mapping.
   */
  lemma CreatedTextNamesHandler(order: Data, submitted: Data, tables: Tables, sender: Value, fmt: DateFormat)
    ensures var text := OrderCreatedText(order, submitted, GetOrderSystemUser(tables, sender), fmt);
      && OrderCreatedOpening(order) <= text
      && (IsUserRegistered(tables, sender) ==>
            Contains(text, "\n👨‍💼 Handler: " + tables.userMapping[ToText(sender)].name + "\n"))
      && (!IsUserRegistered(tables, sender) ==> Contains(text, "\n👨‍💼 Handler: Unassigned\n"))
  {
    var user := GetOrderSystemUser(tables, sender);
    var opening, body := OrderCreatedOpening(order), OrderCreatedBody(order, submitted);
    ContainsInfix(opening + body, HandlerLine(user), OrderCreatedTail(order, fmt));
    OpensWith(opening, body, HandlerLine(user), OrderCreatedTail(order, fmt));
    assert OrderCreatedText(order, submitted, user, fmt) == opening + body + HandlerLine(user) + OrderCreatedTail(order, fmt);
    if IsUserRegistered(tables, sender) {
      assert HandlerLine(user) == "\n👨‍💼 Handler: " + tables.userMapping[ToText(sender)].name + "\n";
    } else {
      assert HandlerLine(user) == "\n👨‍💼 Handler: Unassigned\n";
    }
  }

  /**
   * What `createOrder` answers once the checks are done: the question or
   * the error without any call, or the create call with the confirmation
   * built from the stored order, or the call's error.
   */
  function Respond(p: Prepared, reply: Outcome<Data>, fmt: DateFormat): (h: Handled)
    ensures h.call.None? <==> !p.Submit?
    ensures p.Ask? ==> h.result == Returned(p.prompt)
    ensures p.Fail? ==> h.result == Threw(p.error)
    ensures p.Submit? ==> h.call == Some(Api.CreateOrder(p.order))
    ensures p.Submit? && reply.Threw? ==> h.result == Threw(reply.message)
    ensures p.Submit? && reply.Returned? ==> h.result == Returned(OrderCreatedText(reply.value, p.order, p.handler, fmt))
  {
    match p
    case Ask(prompt) => Handled(Returned(prompt), None)
    case Fail(error) => Handled(Threw(error), None)
    case Submit(order, user) =>
      match reply
      case Returned(stored) => Handled(Returned(OrderCreatedText(stored, order, user, fmt)), Some(Api.CreateOrder(order)))
      case Threw(message) => Handled(Threw(message), Some(Api.CreateOrder(order)))
  }

  /**
   * `createOrder(orderData, roomId, message, sender)`. The AI's data object
   * is updated step by step in the local `d`; only the final create call
   * and the clearing of the room's action are visible outside.
   */
  method CreateOrder(store: ConversationStore, tables: Tables, orderData: Data, room: RoomId,
                     conversationalMessage: Value, sender: Value, now: int,
                     reply: Outcome<Data>, fmt: DateFormat)
    returns (h: Handled)
    requires store.Valid()
    modifies store
    ensures store.Valid()
    ensures h == Respond(PrepareOrder(orderData, conversationalMessage, sender, tables), reply, fmt)
    ensures store.conversations ==
      if h.call.Some? then AfterClearCurrentAction(old(store.conversations), room, now) else old(store.conversations)
  {
    var resolved := FillCurrenciesFromPair(orderData);
    if resolved.Threw? {
      return Handled(Threw(resolved.message), None);
    }
    var d := resolved.value;
    var question := CheckOrderFields(d, conversationalMessage);
    if question.Some? {
      return Handled(Returned(question.value), None);
    }
    h := SubmitOrder(store, tables, d, room, sender, now, reply, fmt);
  }

  /** The four checks of `createOrder`, each returning its question (or the AI's message) early. */
  method CheckOrderFields(d: Data, conversationalMessage: Value) returns (question: Option<string>)
    ensures question == FirstQuestion(d, conversationalMessage)
  {
    var missing := MissingFields(d, RequiredOrderFields);
    if |missing| > 0 {
      return Some(OrElse(conversationalMessage, StillNeed(missing)));
    }
    if !Truthy(Get(d, "amountBuy")) && !Truthy(Get(d, "amountSell")) {
      return Some(OrElse(conversationalMessage, AmountQuestion));
    }
    if !Truthy(Get(d, "buyAccount")) {
      return Some(OrElse(conversationalMessage, BuyAccountQuestion(Get(d, "fromCurrency"))));
    }
    if !Truthy(Get(d, "sellAccount")) {
      return Some(OrElse(conversationalMessage, SellAccountQuestion(Get(d, "toCurrency"))));
    }
    question := None;
  }

  /**
   * The rest of `createOrder` once the checks passed: calculate the missing
   * amount, default the type, set the handler, call the record system and
   * clear the room's action whether the call succeeded or threw.
   */
  method SubmitOrder(store: ConversationStore, tables: Tables, d: Data, room: RoomId, sender: Value, now: int,
                     reply: Outcome<Data>, fmt: DateFormat)
    returns (h: Handled)
    requires store.Valid()
    modifies store
    ensures store.Valid()
    ensures h == Respond(Finish(d, sender, tables), reply, fmt)
    ensures store.conversations ==
      if h.call.Some? then AfterClearCurrentAction(old(store.conversations), room, now) else old(store.conversations)
  {
    var calculated := CalculateAmounts(d);
    if calculated.Threw? {
      return Handled(Threw(calculated.message), None);
    }
    h := PlaceOrder(store, tables, calculated.value, room, sender, now, reply, fmt);
  }

  /** `createOrder` after the calculation: the default type, the check on both amounts, the handler and the call. */
  method PlaceOrder(store: ConversationStore, tables: Tables, calculated: Data, room: RoomId, sender: Value, now: int,
                    reply: Outcome<Data>, fmt: DateFormat)
    returns (h: Handled)
    requires store.Valid()
    modifies store
    ensures store.Valid()
    ensures h == Respond(FinishCalculated(calculated, sender, tables), reply, fmt)
    ensures store.conversations ==
      if h.call.Some? then AfterClearCurrentAction(old(store.conversations), room, now) else old(store.conversations)
  {
    var calculatedData := calculated;
    if !Truthy(Get(calculatedData, "orderType")) {
      calculatedData := calculatedData["orderType" := Str("online")];
    }
    assert calculatedData == WithDefaultType(calculated);
    if !Truthy(Get(calculatedData, "amountBuy")) || !Truthy(Get(calculatedData, "amountSell")) {
      return Handled(Returned(CalculationWarning), None);
    }

    ghost var typed := calculatedData;
    var systemUser := GetOrderSystemUser(tables, sender);
    if systemUser.Some? {
      calculatedData := calculatedData["handlerId" := Num(systemUser.value.userId as real)];
    }
    assert calculatedData == WithHandler(typed, systemUser);
    assert FinishCalculated(calculated, sender, tables) == Submit(calculatedData, systemUser);

    h := SendOrder(store, room, now, calculatedData, systemUser, reply, fmt);
  }

  /** The `try` block of `createOrder`: the create call, then the room's action is cleared on success and on error. */
  method SendOrder(store: ConversationStore, room: RoomId, now: int, calculatedData: Data,
                   systemUser: Option<SystemUser>, reply: Outcome<Data>, fmt: DateFormat)
    returns (h: Handled)
    requires store.Valid()
    modifies store
    ensures store.Valid()
    ensures h == Respond(Submit(calculatedData, systemUser), reply, fmt)
    ensures store.conversations == AfterClearCurrentAction(old(store.conversations), room, now)
  {
    var call := Api.CreateOrder(calculatedData);
    match reply
    case Returned(order) =>
      store.ClearCurrentAction(room, now);
      h := Handled(Returned(OrderCreatedText(order, calculatedData, systemUser, fmt)), Some(call));
    case Threw(message) =>
      store.ClearCurrentAction(room, now);
      h := Handled(Threw(message), Some(call));
  }

  // ---------------------------------------------------------------------
  // getOrderStatus, completeOrder
  // ---------------------------------------------------------------------

  const InvalidOrderId := "❌ Invalid order ID. Please provide a valid number."

  /** The details of one order; the last line names the handler when the order has one and is empty otherwise. */
  function OrderDetailsText(order: Data, fmt: DateFormat): (text: string)
    ensures var handler := Get(order, "handlerName");
      && (Truthy(handler) ==> var line := "👨‍💼 Handler: " + ToText(handler);
            |line| <= |text| && text[|text| - |line|..] == line)
      && (!Truthy(handler) ==> 0 < |text| && text[|text| - 1] == '\n')
  {
    WithLastLine(
      "📋 Order #" + ToText(Get(order, "id")) + " Details\n\n👤 Customer: " + OrElse(Get(order, "customerName"), "N/A") +
      "\n💱 Exchange: " + ToText(Get(order, "amountBuy")) + " " + ToText(Get(order, "fromCurrency")) +
      " → " + ToText(Get(order, "amountSell")) + " " + ToText(Get(order, "toCurrency")) +
      "\n📊 Rate: " + ToText(Get(order, "rate")) +
      "\n📦 Type: " + OrElse(Get(order, "orderType"), "online") +
      "\n✅ Status: " + ToText(Get(order, "status")) +
      "\n📅 Created: " + fmt.localeString(Get(order, "createdAt")),
      Get(order, "handlerName"), "👨‍💼 Handler: ")
  }

  /** The reply after the record system marked the order complete: its id, then the exchange. */
  function OrderCompletedText(order: Data): (text: string)
    ensures "✅ Order #" + ToText(Get(order, "id")) + " Completed!" <= text
    ensures var exchange := ToText(Get(order, "amountSell")) + " " + ToText(Get(order, "toCurrency"));
      |exchange| <= |text| && text[|text| - |exchange|..] == exchange
  {
    var opening := "✅ Order #" + ToText(Get(order, "id")) + " Completed!";
    var exchange := ToText(Get(order, "amountSell")) + " " + ToText(Get(order, "toCurrency"));
    opening +
    ("\n\nOrder has been marked as complete.\n💱 " +
     ToText(Get(order, "amountBuy")) + " " + ToText(Get(order, "fromCurrency")) + " → ") +
    exchange
  }

  /** `getOrderStatus(orderId)`: no call without a usable id. */
  function GetOrderStatus(orderId: Value, reply: Outcome<Data>, fmt: DateFormat): (h: Handled)
    ensures h.call.None? <==> !CheckId(orderId).GoodId?
    ensures h.call.Some? ==> h.call.value == Api.GetOrder(CheckId(orderId).id)
    ensures !Truthy(orderId) ==> h.result == Returned("❌ Please provide an order ID (e.g., \"status of order #123\").")
    ensures CheckId(orderId).BadId? ==> h.result == Returned(InvalidOrderId)
    ensures h.call.Some? && reply.Returned? ==> h.result == Returned(OrderDetailsText(reply.value, fmt))
    ensures h.call.Some? && reply.Threw? ==> h.result == Threw(reply.message)
  {
    Lookup(orderId, "❌ Please provide an order ID (e.g., \"status of order #123\").", InvalidOrderId,
           id => Api.GetOrder(id), reply, order => OrderDetailsText(order, fmt))
  }

  /** `completeOrder(orderId)`: no call without a usable id. */
  function CompleteOrder(orderId: Value, reply: Outcome<Data>): (h: Handled)
    ensures h.call.None? <==> !CheckId(orderId).GoodId?
    ensures h.call.Some? ==> h.call.value == Api.CompleteOrder(CheckId(orderId).id)
    ensures !Truthy(orderId) ==> h.result == Returned("❌ Please provide an order ID (e.g., \"complete order #123\").")
    ensures CheckId(orderId).BadId? ==> h.result == Returned(InvalidOrderId)
    ensures h.call.Some? && reply.Returned? ==> h.result == Returned(OrderCompletedText(reply.value))
    ensures h.call.Some? && reply.Threw? ==> h.result == Threw(reply.message)
  {
    Lookup(orderId, "❌ Please provide an order ID (e.g., \"complete order #123\").", InvalidOrderId,
           id => Api.CompleteOrder(id), reply, OrderCompletedText)
  }

  // ---------------------------------------------------------------------
  // listOrders, buildFilterDescription
  // ---------------------------------------------------------------------

  /** The keys of the `dateLabels` table. */
  const DateKeys: seq<string> := ["today", "last_week", "this_week", "current_month", "last_month"]

  /** `key` with every underscore written as a space. */
  function Spaced(key: string): (r: string)
    ensures |r| == |key|
    ensures forall i :: 0 <= i < |key| ==> r[i] == if key[i] == '_' then ' ' else key[i]
  {
    seq(|key|, i requires 0 <= i < |key| => if key[i] == '_' then ' ' else key[i])
  }

  /**
   * The `dateLabels` table: each of its keys is shown with its underscores
   * as spaces; any other value is shown as it is.
   */
  function DateLabel(range: Value): (shown: string)
    ensures ToText(range) in DateKeys ==> shown == Spaced(ToText(range))
    ensures ToText(range) !in DateKeys ==> shown == ToText(range)
  {
    var key := ToText(range);
    assert Spaced("last_week") == "last week";
    assert Spaced("this_week") == "this week";
    assert Spaced("current_month") == "current month";
    assert Spaced("last_month") == "last month";
    assert Spaced("today") == "today";
    if key == "today" then "today"
    else if key == "last_week" then "last week"
    else if key == "this_week" then "this week"
    else if key == "current_month" then "current month"
    else if key == "last_month" then "last month"
    else key
  }

  /** The part one truthy filter contributes. */
  function FilterPart(key: string, v: Value): string
  {
    if key == "status" then "status: " + ToText(v)
    else if key == "tags" then "tags: " + ToText(v)
    else if key == "handler" then "handler: " + ToText(v)
    else if key == "customer" then "customer: " + ToText(v)
    else if key == "createdBy" then "created by: " + ToText(v)
    else if key == "dateRange" then DateLabel(v)
    else "pair: " + ToText(v)
  }

  /** The part a filter contributes: one entry when it is truthy, none otherwise. */
  function Part(filters: Data, key: string): (r: seq<string>)
    ensures |r| <= 1
    ensures r == [] <==> !Truthy(Get(filters, key))
  {
    if Truthy(Get(filters, key)) then [FilterPart(key, Get(filters, key))] else []
  }

  /** The filters `buildFilterDescription` looks at, in its order. */
  const FilterKeys: seq<string> := ["status", "tags", "handler", "customer", "createdBy", "dateRange", "currencyPair"]

  /** The parts for the truthy filters among `keys`, in the order of `keys`: one push step per key. */
  function PartsOf(filters: Data, keys: seq<string>): (parts: seq<string>)
    ensures |parts| <= |keys|
  {
    if keys == [] then [] else PartsOf(filters, keys[..|keys| - 1]) + Part(filters, keys[|keys| - 1])
  }

  /** A truthy filter among `keys` contributes its part to `PartsOf`, at index `b`. */
  lemma {:induction false} PartIsListed(filters: Data, keys: seq<string>, j: nat) returns (b: nat)
    requires j < |keys| && Truthy(Get(filters, keys[j]))
    ensures b < |PartsOf(filters, keys)|
    ensures PartsOf(filters, keys)[b] == FilterPart(keys[j], Get(filters, keys[j]))
    decreases |keys|
  {
    var init := keys[..|keys| - 1];
    var earlier := PartsOf(filters, init);
    assert PartsOf(filters, keys) == earlier + Part(filters, keys[|keys| - 1]);
    if j == |keys| - 1 {
      b := |earlier|;
    } else {
      b := PartIsListed(filters, init, j);
      assert init[j] == keys[j];
    }
  }

  /** Of two truthy filters, the one earlier in `keys` has its part earlier in `PartsOf`: at `a`, before `b`. */
  lemma {:induction false} PartsKeepKeyOrder(filters: Data, keys: seq<string>, i: nat, j: nat) returns (a: nat, b: nat)
    requires i < j < |keys|
    requires Truthy(Get(filters, keys[i])) && Truthy(Get(filters, keys[j]))
    ensures a < b < |PartsOf(filters, keys)|
    ensures PartsOf(filters, keys)[a] == FilterPart(keys[i], Get(filters, keys[i]))
    ensures PartsOf(filters, keys)[b] == FilterPart(keys[j], Get(filters, keys[j]))
    decreases |keys|
  {
    var init := keys[..|keys| - 1];
    var earlier := PartsOf(filters, init);
    assert PartsOf(filters, keys) == earlier + Part(filters, keys[|keys| - 1]);
    assert init[i] == keys[i];
    if j == |keys| - 1 {
      a := PartIsListed(filters, init, i);
      b := |earlier|;
    } else {
      a, b := PartsKeepKeyOrder(filters, init, i, j);
      assert init[j] == keys[j];
    }
  }

  /** The parts for the truthy filters, in the order status, tags, handler, customer, createdBy, dateRange, currencyPair. */
  function FilterParts(filters: Data): (parts: seq<string>)
    ensures |parts| <= |FilterKeys|
    ensures parts == [] <==> NoFilter(filters)
  {
    Part(filters, "status") + Part(filters, "tags") + Part(filters, "handler") + Part(filters, "customer") +
    Part(filters, "createdBy") + Part(filters, "dateRange") + Part(filters, "currencyPair")
  }

  /** The seven steps of `FilterParts` are `PartsOf` over the key list. */
  lemma FilterPartsFollowKeys(filters: Data)
    ensures FilterParts(filters) == PartsOf(filters, FilterKeys)
  {
    var k := FilterKeys;
    assert k[..1][..0] == [];
    assert PartsOf(filters, k[..1]) == Part(filters, "status");
    assert k[..2][..1] == k[..1];
    assert PartsOf(filters, k[..2]) == Part(filters, "status") + Part(filters, "tags");
    assert k[..3][..2] == k[..2];
    assert PartsOf(filters, k[..3]) == Part(filters, "status") + Part(filters, "tags") + Part(filters, "handler");
    assert k[..4][..3] == k[..3];
    assert PartsOf(filters, k[..4]) ==
      Part(filters, "status") + Part(filters, "tags") + Part(filters, "handler") + Part(filters, "customer");
    assert k[..5][..4] == k[..4];
    assert PartsOf(filters, k[..5]) ==
      Part(filters, "status") + Part(filters, "tags") + Part(filters, "handler") + Part(filters, "customer") +
      Part(filters, "createdBy");
    assert k[..6][..5] == k[..5];
    assert PartsOf(filters, k[..6]) ==
      Part(filters, "status") + Part(filters, "tags") + Part(filters, "handler") + Part(filters, "customer") +
      Part(filters, "createdBy") + Part(filters, "dateRange");
    assert k[..7][..6] == k[..6];
    assert k[..7] == k;
  }

  /**
   * `buildFilterDescription` keeps the order of its filters: when two filters
   * are set, the one it checks first is described first.
   */
  lemma FilterPartsKeepOrder(filters: Data, i: nat, j: nat)
    requires i < j < |FilterKeys|
    requires Truthy(Get(filters, FilterKeys[i])) && Truthy(Get(filters, FilterKeys[j]))
    ensures exists a, b ::
              && 0 <= a < b < |FilterParts(filters)|
              && FilterParts(filters)[a] == FilterPart(FilterKeys[i], Get(filters, FilterKeys[i]))
              && FilterParts(filters)[b] == FilterPart(FilterKeys[j], Get(filters, FilterKeys[j]))
  {
    FilterPartsFollowKeys(filters);
    var a, b := PartsKeepKeyOrder(filters, FilterKeys, i, j);
  }

  /** No filter is set. */
  predicate NoFilter(filters: Data)
  {
    && !Truthy(Get(filters, "status")) && !Truthy(Get(filters, "tags")) && !Truthy(Get(filters, "handler"))
    && !Truthy(Get(filters, "customer")) && !Truthy(Get(filters, "createdBy"))
    && !Truthy(Get(filters, "dateRange")) && !Truthy(Get(filters, "currencyPair"))
  }

  /** The description: `" (" + parts.join(", ") + ")"`, or nothing without filters. */
  function FilterDescription(filters: Data): (r: string)
    ensures r == "" <==> NoFilter(filters)
    ensures !NoFilter(filters) ==> r == " (" + Join(FilterParts(filters), ", ") + ")"
    ensures r != "" ==> |r| >= 3 && r[0] == ' ' && r[1] == '(' && r[|r| - 1] == ')'
  {
    var parts := FilterParts(filters);
    if |parts| > 0 then " (" + Join(parts, ", ") + ")" else ""
  }

  /** One `if (filters.key) parts.push(...)` step of `buildFilterDescription`. */
  method PushPart(parts: seq<string>, filters: Data, key: string) returns (r: seq<string>)
    ensures r == parts + Part(filters, key)
  {
    r := parts;
    if Truthy(Get(filters, key)) {
      r := r + [FilterPart(key, Get(filters, key))];
    }
  }

  /** `buildFilterDescription(filters)`: one push step per filter, in the source's order, then the join. */
  method BuildFilterDescription(filters: Data) returns (desc: string)
    ensures desc == FilterDescription(filters)
  {
    var parts: seq<string> := [];
    parts := PushPart(parts, filters, "status");
    parts := PushPart(parts, filters, "tags");
    parts := PushPart(parts, filters, "handler");
    parts := PushPart(parts, filters, "customer");
    parts := PushPart(parts, filters, "createdBy");
    parts := PushPart(parts, filters, "dateRange");
    parts := PushPart(parts, filters, "currencyPair");
    assert [] + Part(filters, "status") == Part(filters, "status");
    desc := if |parts| > 0 then " (" + Join(parts, ", ") + ")" else "";
  }

  /** One order's line in the list, opening with its id. */
  function OrderRow(fmt: DateFormat, order: Data): (row: string)
    ensures "#" + ToText(Get(order, "id")) + " " <= row && row[|row| - 1] == '\n'
  {
    RecordLine(Get(order, "id"), fmt.monthDay(Get(order, "createdAt")) + ": " +
    ToText(Get(order, "amountBuy")) + " " + ToText(Get(order, "fromCurrency")) + " → " +
    ToText(Get(order, "amountSell")) + " " + ToText(Get(order, "toCurrency")) + " " +
    (if Truthy(Get(order, "rate")) then "@" + ToText(Get(order, "rate")) else "") +
    " | " + ToText(Get(order, "status")) + " | 👥" + OrElse(Get(order, "customerName"), "Unknown") +
    (if Truthy(Get(order, "handlerName")) then " | 👤" + ToText(Get(order, "handlerName")) else "") +
    (if Truthy(Get(order, "createdByName")) then " | ✍️" + ToText(Get(order, "createdByName")) else "") +
    (if Truthy(Get(order, "tags")) then " | 🏷️" + ToText(Get(order, "tags")) else ""))
  }

  function OrderRowOf(fmt: DateFormat): Data -> string
  {
    order => OrderRow(fmt, order)
  }

  const OrdersTip := "💡 Tip: Use filters to narrow results (status, customer, handler, date, tags, currency pair)"

  function OrdersHeader(filters: Data, total: nat): string
  {
    "📋 Orders" + FilterDescription(filters) + " (" + IntToString(total) + " found)\n\n"
  }

  /** `listOrders(filters)`: always one list call; at most twenty rows and a trailer beyond that. */
  method ListOrders(filters: Data, reply: Outcome<seq<Data>>, fmt: DateFormat) returns (h: Handled)
    ensures h.call == Some(Api.ListOrders(Api.FetchLimit, filters))
    ensures reply.Threw? ==> h.result == Threw(reply.message)
    ensures reply.Returned? && |reply.value| == 0 ==>
      h.result == Returned("📋 No orders found" + FilterDescription(filters) + ".")
    ensures reply.Returned? && |reply.value| > 0 ==>
      h.result == Returned(Listing(OrdersHeader(filters, |reply.value|), reply.value, OrderRowOf(fmt),
                                   " more orders.\n", OrdersTip))
  {
    var call := Api.ListOrders(Api.FetchLimit, filters);
    if reply.Threw? {
      return Handled(Threw(reply.message), Some(call));
    }
    var orders := reply.value;
    if |orders| == 0 {
      var filterDesc := BuildFilterDescription(filters);
      return Handled(Returned("📋 No orders found" + filterDesc + "."), Some(call));
    }
    var filterDesc := BuildFilterDescription(filters);
    var totalOrders := |orders|;
    var remainingCount := totalOrders - DisplayLimit;
    var header := "📋 Orders" + filterDesc + " (" + IntToString(totalOrders) + " found)\n\n";
    assert header == OrdersHeader(filters, totalOrders);
    var response := RenderRows(header, orders, OrderRowOf(fmt));
    if remainingCount > 0 {
      response := response + "\n... and " + IntToString(remainingCount) + " more orders.\n";
      response := response + OrdersTip;
    }
    h := Handled(Returned(response), Some(call));
  }

  // ---------------------------------------------------------------------
  // handleOrderCommand
  // ---------------------------------------------------------------------

  /**
   * The `switch` inside the `try` of `handleOrderCommand`: which step runs
   * for the action, and what it returned or threw.
   */
  method RunOrderAction(store: ConversationStore, tables: Tables, ai: AiReply, sender: Value, room: RoomId,
                        now: int, answers: Api.Answers, fmt: DateFormat)
    returns (h: Handled)
    requires store.Valid()
    modifies store
    ensures store.Valid()
    ensures h.call.Some? ==> h.call.value.IsOrderCall()
    ensures h.call.Some? && h.call.value.IsCreate() ==> ai.action == Str("create_order")
    ensures store.conversations ==
      if ai.action == Str("create_order") && h.call.Some? then AfterClearCurrentAction(old(store.conversations), room, now)
      else old(store.conversations)
    ensures ai.action == Str("create_order") ==>
      h == Respond(PrepareOrder(ai.data, ai.message, sender, tables), answers.record, fmt)
    ensures ai.action == Str("get_order") ==> h == GetOrderStatus(Get(ai.data, "order_id"), answers.record, fmt)
    ensures ai.action == Str("complete_order") ==> h == CompleteOrder(Get(ai.data, "order_id"), answers.record)
    ensures ai.action == Str("list_orders") ==>
      var records := answers.records;
      && h.call == Some(Api.ListOrders(Api.FetchLimit, ai.data))
      && (records.Threw? ==> h.result == Threw(records.message))
      && (records.Returned? && |records.value| == 0 ==>
            h.result == Returned("📋 No orders found" + FilterDescription(ai.data) + "."))
      && (records.Returned? && |records.value| > 0 ==>
            h.result == Returned(Listing(OrdersHeader(ai.data, |records.value|), records.value, OrderRowOf(fmt),
                                         " more orders.\n", OrdersTip)))
    ensures ai.action !in {Str("create_order"), Str("get_order"), Str("complete_order"), Str("list_orders")} ==>
      h == Handled(Returned(OrElse(ai.message, "❌ Unknown order action")), None)
  {
    if ai.action == Str("create_order") {
      h := CreateOrder(store, tables, ai.data, room, ai.message, sender, now, answers.record, fmt);
    } else {
      h := QueryOrders(ai, answers, fmt);
    }
  }

  /** The `switch` cases of `handleOrderCommand` that only read from the record system. */
  method QueryOrders(ai: AiReply, answers: Api.Answers, fmt: DateFormat) returns (h: Handled)
    ensures h.call.Some? ==> h.call.value.IsOrderCall() && !h.call.value.IsCreate()
    ensures ai.action == Str("get_order") ==> h == GetOrderStatus(Get(ai.data, "order_id"), answers.record, fmt)
    ensures ai.action == Str("complete_order") ==> h == CompleteOrder(Get(ai.data, "order_id"), answers.record)
    ensures ai.action == Str("list_orders") ==>
      var records := answers.records;
      && h.call == Some(Api.ListOrders(Api.FetchLimit, ai.data))
      && (records.Threw? ==> h.result == Threw(records.message))
      && (records.Returned? && |records.value| == 0 ==>
            h.result == Returned("📋 No orders found" + FilterDescription(ai.data) + "."))
      && (records.Returned? && |records.value| > 0 ==>
            h.result == Returned(Listing(OrdersHeader(ai.data, |records.value|), records.value, OrderRowOf(fmt),
                                         " more orders.\n", OrdersTip)))
    ensures ai.action !in {Str("get_order"), Str("complete_order"), Str("list_orders")} ==>
      h == Handled(Returned(OrElse(ai.message, "❌ Unknown order action")), None)
  {
    if ai.action == Str("get_order") {
      h := GetOrderStatus(Get(ai.data, "order_id"), answers.record, fmt);
      assert h.call.Some? ==> h.call.value.GetOrder?;
    } else if ai.action == Str("complete_order") {
      h := CompleteOrder(Get(ai.data, "order_id"), answers.record);
      assert h.call.Some? ==> h.call.value.CompleteOrder?;
    } else if ai.action == Str("list_orders") {
      h := ListOrders(ai.data, answers.records, fmt);
    } else {
      h := Handled(Returned(OrElse(ai.message, "❌ Unknown order action")), None);
    }
  }

  /**
   * `handleOrderCommand(aiResponse, sender, roomId)`: routes on the action
   * and turns anything thrown into the "Oops" reply.
   */
  method HandleOrderCommand(store: ConversationStore, tables: Tables, ai: AiReply, sender: Value, room: RoomId,
                            now: int, answers: Api.Answers, fmt: DateFormat)
    returns (response: string, call: Option<Api.Request>)
    requires store.Valid()
    modifies store
    ensures store.Valid()
    ensures call.Some? ==> call.value.IsOrderCall()
    ensures call.Some? && call.value.IsCreate() ==> ai.action == Str("create_order")
    ensures store.conversations ==
      if ai.action == Str("create_order") && call.Some? then AfterClearCurrentAction(old(store.conversations), room, now)
      else old(store.conversations)
    ensures ai.action == Str("create_order") ==>
      var p := PrepareOrder(ai.data, ai.message, sender, tables);
      && (call.Some? <==> p.Submit?)
      && (p.Ask? ==> response == p.prompt)
      && (p.Fail? ==> response == OopsPrefix + p.error)
      && (p.Submit? ==> call == Some(Api.CreateOrder(p.order)))
      && (p.Submit? && answers.record.Returned? ==>
            response == OrderCreatedText(answers.record.value, p.order, p.handler, fmt))
      && (p.Submit? && answers.record.Threw? ==> response == OopsPrefix + answers.record.message)
    ensures ai.action == Str("get_order") ==>
      var h := GetOrderStatus(Get(ai.data, "order_id"), answers.record, fmt);
      response == Caught(h.result) && call == h.call
    ensures ai.action == Str("complete_order") ==>
      var h := CompleteOrder(Get(ai.data, "order_id"), answers.record);
      response == Caught(h.result) && call == h.call
    ensures ai.action == Str("list_orders") ==>
      var records := answers.records;
      && call == Some(Api.ListOrders(Api.FetchLimit, ai.data))
      && (records.Threw? ==> response == OopsPrefix + records.message)
      && (records.Returned? && |records.value| == 0 ==>
            response == "📋 No orders found" + FilterDescription(ai.data) + ".")
      && (records.Returned? && |records.value| > 0 ==>
            response == Listing(OrdersHeader(ai.data, |records.value|), records.value, OrderRowOf(fmt),
                                " more orders.\n", OrdersTip))
    ensures ai.action !in {Str("create_order"), Str("get_order"), Str("complete_order"), Str("list_orders")} ==>
      response == OrElse(ai.message, "❌ Unknown order action") && call.None?
  {
    var h := RunOrderAction(store, tables, ai, sender, room, now, answers, fmt);
    response := Caught(h.result);
    call := h.call;
  }
}
