/**
 * The relay of order-system notifications into the Telegram chat: each
 * notification becomes one plain-text message, sent only once a bot is
 * set up and a target chat is configured. The bot's `sendMessage` is
 * modelled by its outcome (the parameter `delivered`) and the messages it
 * accepted (the field `sent`).
 */
module NotificationPusher {
  import opened Js

  // ---------------------------------------------------------------------
  // Formatting
  // ---------------------------------------------------------------------

  /** The icon of each notification type. */
  const Icons: map<string, string> := map[
    "approval_approved" := "✅",
    "approval_rejected" := "❌",
    "approval_pending" := "⏳",
    "order_assigned" := "👤",
    "order_unassigned" := "🔓",
    "order_created" := "📦",
    "order_completed" := "✅",
    "order_cancelled" := "❌",
    "order_deleted" := "🗑️",
    "expense_created" := "💰",
    "expense_deleted" := "🗑️",
    "transfer_created" := "🔄",
    "transfer_deleted" := "🗑️",
    "wallet_incoming" := "📥",
    "wallet_outgoing" := "📤",
    "wallet_transaction" := "💳"
  ]

  /** The icon of a type missing from the table. */
  const Bell := "🔔"

  /** `icons[type] || '🔔'`; the type is looked up by its text, as an object key is. */
  function IconFor(notificationType: Value): (icon: string)
    ensures ToText(notificationType) in Icons ==> icon == Icons[ToText(notificationType)]
    ensures ToText(notificationType) !in Icons ==> icon == Bell
  {
    var key := ToText(notificationType);
    if key in Icons && Icons[key] != "" then Icons[key] else Bell
  }

  /** The bell is not in the table, so it shows exactly that a type is unknown. */
  lemma BellMeansUnknownType(notificationType: Value)
    ensures IconFor(notificationType) == Bell <==> ToText(notificationType) !in Icons
  {
    var key := ToText(notificationType);
    if key in Icons {
      assert Icons[key] != Bell;
    }
  }

  /** `${icon} ${title}\n${message}` */
  function Headline(n: Data): string
  {
    IconFor(Get(n, "type")) + " " + ToText(Get(n, "title")) + "\n" + ToText(Get(n, "message"))
  }

  /** The record line, present when both the entity type and the entity id are truthy. */
  predicate HasEntity(n: Data)
  {
    Truthy(Get(n, "entityType")) && Truthy(Get(n, "entityId"))
  }

  function EntityLine(n: Data): string
  {
    "\n🔗 " + ToText(Get(n, "entityType")) + " #" + ToText(Get(n, "entityId"))
  }

  /** The user line, present when the user name is truthy. */
  function UserLine(n: Data): string
  {
    "\n👤 " + ToText(Get(n, "userName"))
  }

  /** The message up to the user line. */
  function HeadlineAndEntity(n: Data): string
  {
    Headline(n) + (if HasEntity(n) then EntityLine(n) else "")
  }

  /**
   * `formatNotification(notification)`: the headline, then the record line,
   * then the user line, each of the last two only when its fields are set.
   */
  function FormatNotification(n: Data): (text: string)
    ensures |text| == |Headline(n)| + (if HasEntity(n) then |EntityLine(n)| else 0) +
                      (if Truthy(Get(n, "userName")) then |UserLine(n)| else 0)
    ensures text[..|Headline(n)|] == Headline(n)
    ensures HasEntity(n) ==> text[|Headline(n)|..|Headline(n)| + |EntityLine(n)|] == EntityLine(n)
    ensures Truthy(Get(n, "userName")) ==> text[|text| - |UserLine(n)|..] == UserLine(n)
  {
    HeadlineAndEntity(n) + (if Truthy(Get(n, "userName")) then UserLine(n) else "")
  }

  /** The fields the message is made of. */
  const ShownFields: set<string> := {"type", "title", "message", "entityType", "entityId", "userName"}

  /** Any other field of the notification (such as `userId`) leaves the message unchanged. */
  lemma OtherFieldsAreIgnored(n: Data, field: string, v: Value)
    requires field !in ShownFields
    ensures FormatNotification(n[field := v]) == FormatNotification(n)
  {
    var m := n[field := v];
    forall k | k in ShownFields
      ensures Get(m, k) == Get(n, k)
    {
      assert k != field;
    }
    assert "type" in ShownFields && "title" in ShownFields && "message" in ShownFields;
    assert "entityType" in ShownFields && "entityId" in ShownFields && "userName" in ShownFields;
  }

  /** The user line is the last one: without the user name the message is the same up to it. */
  lemma UserLineComesLast(n: Data)
    requires Truthy(Get(n, "userName"))
    ensures FormatNotification(n) == FormatNotification(n - {"userName"}) + UserLine(n)
  {
    var m := n - {"userName"};
    assert Get(m, "userName") == Undefined;
    assert Get(m, "type") == Get(n, "type") && Get(m, "title") == Get(n, "title");
    assert Get(m, "message") == Get(n, "message");
    assert Get(m, "entityType") == Get(n, "entityType") && Get(m, "entityId") == Get(n, "entityId");
    assert Headline(m) == Headline(n) && HasEntity(m) == HasEntity(n) && EntityLine(m) == EntityLine(n);
    assert HeadlineAndEntity(m) == HeadlineAndEntity(n);
    assert FormatNotification(m) == HeadlineAndEntity(n);
  }

  // ---------------------------------------------------------------------
  // Pushing
  // ---------------------------------------------------------------------

  /** A message the bot accepted for a chat. */
  datatype Sent = Sent(chat: string, text: string)

  /** `TARGET_CHAT_ID` is truthy. */
  predicate Configured(targetChat: Option<string>)
  {
    targetChat.Some? && targetChat.value != ""
  }

  /** How many pushes were delivered. */
  function Successes(delivered: seq<bool>): (count: nat)
    ensures count <= |delivered|
  {
    if delivered == [] then 0
    else Successes(delivered[..|delivered| - 1]) + (if delivered[|delivered| - 1] then 1 else 0)
  }

  /** The messages a run of pushes leaves in the chat, in the order they were sent. */
  function Outbox(chat: string, notifications: seq<Data>, delivered: seq<bool>): (out: seq<Sent>)
    requires |delivered| == |notifications|
    ensures forall s :: s in out ==> s.chat == chat
  {
    if notifications == [] then []
    else
      var last := |notifications| - 1;
      Outbox(chat, notifications[..last], delivered[..last]) +
      (if delivered[last] then [Sent(chat, FormatNotification(notifications[last]))] else [])
  }

  /** One message per delivered push: the tally counts exactly the messages sent. */
  lemma {:induction false} OutboxMatchesSuccesses(chat: string, notifications: seq<Data>, delivered: seq<bool>)
    requires |delivered| == |notifications|
    ensures |Outbox(chat, notifications, delivered)| == Successes(delivered)
    decreases |notifications|
  {
    if notifications != [] {
      var last := |notifications| - 1;
      OutboxMatchesSuccesses(chat, notifications[..last], delivered[..last]);
    }
  }

  /** The module state: the bot (set by `initNotificationPusher`) and the configured chat. */
  class Pusher {
    var botReady: bool
    const targetChat: Option<string>
    var sent: seq<Sent>

    constructor(targetChat: Option<string>)
      ensures this.targetChat == targetChat && !botReady && sent == []
    {
      this.targetChat := targetChat;
      botReady := false;
      sent := [];
    }

    /** Both guards of `pushNotification` pass. */
    predicate Ready()
      reads this
    {
      botReady && Configured(targetChat)
    }

    /** `initNotificationPusher(bot)`: pushing needs a truthy bot. */
    method Init(botGiven: bool)
      modifies this
      ensures botReady == botGiven && sent == old(sent)
    {
      botReady := botGiven;
    }

    /**
     * `pushNotification(notification)`: false without a bot or a target chat;
     * otherwise the formatted message is sent, and the result is whether the
     * bot accepted it (`delivered`).
     */
    method Push(n: Data, delivered: bool) returns (ok: bool)
      modifies this
      ensures botReady == old(botReady)
      ensures ok <==> Ready() && delivered
      ensures sent == old(sent) + (if ok then [Sent(targetChat.value, FormatNotification(n))] else [])
    {
      if !botReady {
        return false;
      }
      if !Configured(targetChat) {
        return false;
      }
      var message := FormatNotification(n);
      if !delivered {
        return false;
      }
      sent := sent + [Sent(targetChat.value, message)];
      ok := true;
    }

    /**
     * `pushNotifications(notifications)`: every notification is pushed, in
     * order, and the pushes that returned true are counted.
     */
    method PushAll(notifications: seq<Data>, delivered: seq<bool>) returns (successful: nat)
      requires |delivered| == |notifications|
      modifies this
      ensures botReady == old(botReady)
      ensures successful <= |notifications|
      ensures successful == if Ready() then Successes(delivered) else 0
      ensures Ready() ==> sent == old(sent) + Outbox(targetChat.value, notifications, delivered)
      ensures !Ready() ==> sent == old(sent)
    {
      successful := 0;
      var i := 0;
      while i < |notifications|
        invariant 0 <= i <= |notifications|
        invariant botReady == old(botReady)
        invariant successful == if Ready() then Successes(delivered[..i]) else 0
        invariant Ready() ==> sent == old(sent) + Outbox(targetChat.value, notifications[..i], delivered[..i])
        invariant !Ready() ==> sent == old(sent)
      {
        var ok := Push(notifications[i], delivered[i]);
        if ok {
          successful := successful + 1;
        }
        assert notifications[..i + 1][..i] == notifications[..i];
        assert delivered[..i + 1][..i] == delivered[..i];
        i := i + 1;
      }
      assert notifications[..i] == notifications && delivered[..i] == delivered;
    }
  }
}
