/**
 * Who may do what: the table from Telegram user ids to users of the order
 * system, and the list of admins who may create records through the bot.
 * The tables are parameters; `Shipped` is the configuration as it ships,
 * with both tables empty.
 */
module UserMapping {
  import opened Js

  datatype SystemUser = SystemUser(userId: int, name: string, email: string)

  /** `USER_MAPPING` (keyed by the id's decimal text) and `ADMIN_USERS`. */
  datatype Tables = Tables(userMapping: map<string, SystemUser>, adminUsers: seq<string>)

  const Shipped: Tables := Tables(map[], [])

  /** `getOrderSystemUser(id)`: the mapped user, looked up by `String(id)`, or null. */
  function GetOrderSystemUser(t: Tables, telegramUserId: Value): (r: Option<SystemUser>)
    ensures r.Some? <==> ToText(telegramUserId) in t.userMapping
    ensures r.Some? ==> r.value == t.userMapping[ToText(telegramUserId)]
  {
    var key := ToText(telegramUserId);
    if key in t.userMapping then Some(t.userMapping[key]) else None
  }

  /** `isUserRegistered(id)`: a sender is registered exactly when it has a mapped user. */
  predicate IsUserRegistered(t: Tables, telegramUserId: Value)
    ensures IsUserRegistered(t, telegramUserId) <==> GetOrderSystemUser(t, telegramUserId).Some?
  {
    ToText(telegramUserId) in t.userMapping
  }

  /** `isAdmin(id)`: `String(id)` occurs in the admin list. */
  predicate IsAdmin(t: Tables, telegramUserId: Value)
    ensures IsAdmin(t, telegramUserId) <==>
      exists i :: 0 <= i < |t.adminUsers| && t.adminUsers[i] == ToText(telegramUserId)
    ensures t.adminUsers == [] ==> !IsAdmin(t, telegramUserId)
  {
    ToText(telegramUserId) in t.adminUsers
  }

  /** The numeric id and its decimal text name the same sender in every lookup. */
  lemma NumericAndTextIdsAgree(t: Tables, id: int)
    ensures IsAdmin(t, Num(id as real)) <==> IsAdmin(t, Str(IntToString(id)))
    ensures IsUserRegistered(t, Num(id as real)) <==> IsUserRegistered(t, Str(IntToString(id)))
    ensures GetOrderSystemUser(t, Num(id as real)) == GetOrderSystemUser(t, Str(IntToString(id)))
  {
    NumTextOfInt(id);
  }

  /** With the tables as shipped, nobody is an admin and nobody is mapped. */
  lemma ShippedDeniesEveryone(telegramUserId: Value)
    ensures !IsAdmin(Shipped, telegramUserId)
    ensures !IsUserRegistered(Shipped, telegramUserId)
    ensures GetOrderSystemUser(Shipped, telegramUserId).None?
  {
  }

  /** `getAllRegisteredUsers()`: `Object.keys(USER_MAPPING)`, each key once. */
  method GetAllRegisteredUsers(t: Tables) returns (keys: seq<string>)
    ensures forall k :: k in keys <==> k in t.userMapping
    ensures forall i, j :: 0 <= i < j < |keys| ==> keys[i] != keys[j]
  {
    keys := [];
    var remaining := t.userMapping.Keys;
    while remaining != {}
      invariant remaining <= t.userMapping.Keys
      invariant forall k :: k in keys <==> k in t.userMapping && k !in remaining
      invariant forall i, j :: 0 <= i < j < |keys| ==> keys[i] != keys[j]
      decreases remaining
    {
      var k := AnyElement(remaining);
      keys := keys + [k];
      remaining := remaining - {k};
    }
  }

  /** What the bot tells a non-admin it cannot do, by action. */
  function ActionText(action: string): (r: string)
    ensures action == "create_order" ==> r == "create orders"
    ensures action == "create_expense" ==> r == "add expenses"
    ensures action == "create_transfer" ==> r == "create transfers"
    ensures action != "create_order" && action != "create_expense" && action != "create_transfer" ==>
      r == "perform this action"
  {
    if action == "create_order" then "create orders"
    else if action == "create_expense" then "add expenses"
    else if action == "create_transfer" then "create transfers"
    else "perform this action"
  }

  const NonAdminPrefix :=
    "🔒 I'm sorry, but I can only help you view and query data right now.\n"
    + "\n"
    + "To "
  const NonAdminSuffix :=
    ", please use the web system at your convenience.\n"
    + "\n"
    + "I can still help you:\n"
    + "• Check order status\n"
    + "• List recent orders\n"
    + "• View expenses\n"
    + "• Check transfers\n"
    + "\n"
    + "What would you like to know?"

  /** `getNonAdminMessage(action)` */
  function GetNonAdminMessage(action: string): (r: string)
    ensures |r| == |NonAdminPrefix| + |ActionText(action)| + |NonAdminSuffix|
    ensures r[..|NonAdminPrefix|] == NonAdminPrefix
    ensures r[|NonAdminPrefix|..|r| - |NonAdminSuffix|] == ActionText(action)
    ensures r[|r| - |NonAdminSuffix|..] == NonAdminSuffix
  {
    NonAdminPrefix + ActionText(action) + NonAdminSuffix
  }

  /** The three create actions get three different refusals, and every other action the generic one. */
  lemma NonAdminMessagesDiffer(a: string, b: string)
    requires a in ["create_order", "create_expense", "create_transfer"]
    ensures GetNonAdminMessage(a) == GetNonAdminMessage(b) <==> a == b
  {
    var pa, pb := GetNonAdminMessage(a), GetNonAdminMessage(b);
    if pa == pb {
      assert |ActionText(a)| == |ActionText(b)|;
      assert ActionText(a) == pa[|NonAdminPrefix|..|pa| - |NonAdminSuffix|];
      assert ActionText(b) == pb[|NonAdminPrefix|..|pb| - |NonAdminSuffix|];
    }
  }
}
