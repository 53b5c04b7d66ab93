/**
 * The per-room conversation store of the bot: a map from room id to the
 * room's recent history (at most six entries), the action being collected,
 * the data collected for it so far and the time of the last activity.
 * `Date.now()` is the parameter `now` of every operation that reads it.
 */
module ConversationState {
  import opened Js

  type RoomId = int

  datatype Role = System | User | Assistant

  datatype Entry = Entry(role: Role, content: string, timestamp: int)

  datatype Conversation = Conversation(
    history: seq<Entry>,
    currentAction: Option<string>,
    collectedData: Data,
    lastActivity: int)

  /** Only the last six messages (three exchanges) are kept. */
  const HistoryCap: nat := 6

  /** Conversations idle for more than thirty minutes are swept away. */
  const IdleLimit: int := 30 * 60 * 1000

  /** The default `limit` of `getHistoryForAI`. */
  const DefaultHistoryLimit: int := 4

  /** The conversation `getConversation` creates for a room it has not seen. */
  function Fresh(now: int): (c: Conversation)
    ensures c.history == [] && c.currentAction.None? && c.collectedData == map[]
    ensures c.lastActivity == now
  {
    Conversation([], None, map[], now)
  }

  // ---------------------------------------------------------------------
  // Sequences and objects, as the source manipulates them
  // ---------------------------------------------------------------------

  /** The last `n` elements of `s`, or all of `s` when it is shorter. */
  function LastN<T>(s: seq<T>, n: nat): (r: seq<T>)
    ensures |r| == Min(n, |s|)
    ensures forall i :: 0 <= i < |r| ==> r[i] == s[|s| - |r| + i]
  {
    if |s| <= n then s else s[|s| - n..]
  }

  /**
   * `s.slice(-limit)`. A positive limit keeps the last `limit` elements; a
   * limit of zero is `slice(-0)`, which keeps everything; a negative limit
   * drops the first `-limit` elements.
   */
  function SliceFromEnd<T>(s: seq<T>, limit: int): (r: seq<T>)
    ensures limit > 0 ==> r == LastN(s, limit)
    ensures limit == 0 ==> r == s
    ensures limit < 0 ==> |r| == |s| - Min(-limit, |s|)
    ensures exists k :: 0 <= k <= |s| && r == s[k..]
  {
    if limit > 0 then
      assert LastN(s, limit) == s[|s| - Min(limit, |s|)..];
      LastN(s, limit)
    else if limit == 0 then
      assert s == s[0..];
      s
    else s[Min(-limit, |s|)..]
  }

  /**
   * `{ ...base, ...incoming }`: every key of either object, with the
   * incoming value wherever `incoming` has the key.
   */
  function Merge(base: Data, incoming: Data): (r: Data)
    ensures r.Keys == base.Keys + incoming.Keys
    ensures forall k :: k in incoming ==> r[k] == incoming[k]
    ensures forall k :: k in base && k !in incoming ==> r[k] == base[k]
  {
    base + incoming
  }

  // ---------------------------------------------------------------------
  // One conversation
  // ---------------------------------------------------------------------

  /** `addMessage` on the room's conversation: push, then keep the last six. */
  function Appended(c: Conversation, role: Role, content: string, now: int): (r: Conversation)
    ensures |r.history| == Min(|c.history| + 1, HistoryCap)
    ensures r.history[|r.history| - 1] == Entry(role, content, now)
    ensures forall i :: 0 <= i < |r.history| - 1 ==>
      r.history[i] == c.history[|c.history| + 1 - |r.history| + i]
    ensures r.lastActivity == now
    ensures r.currentAction == c.currentAction && r.collectedData == c.collectedData
  {
    c.(history := LastN(c.history + [Entry(role, content, now)], HistoryCap), lastActivity := now)
  }

  /** `setCurrentAction` on the room's conversation. */
  function WithAction(c: Conversation, action: string, data: Data, now: int): (r: Conversation)
    ensures r.currentAction == Some(action)
    ensures r.collectedData == Merge(c.collectedData, data)
    ensures r.history == c.history && r.lastActivity == now
  {
    c.(currentAction := Some(action), collectedData := Merge(c.collectedData, data), lastActivity := now)
  }

  /** `updateCollectedData` on the room's conversation: the action is kept. */
  function WithData(c: Conversation, data: Data, now: int): (r: Conversation)
    ensures r.currentAction == c.currentAction
    ensures r.collectedData == Merge(c.collectedData, data)
    ensures r.history == c.history && r.lastActivity == now
  {
    c.(collectedData := Merge(c.collectedData, data), lastActivity := now)
  }

  /** `clearCurrentAction` on the room's conversation: history and last activity are kept. */
  function Cleared(c: Conversation): (r: Conversation)
    ensures r.currentAction.None? && r.collectedData == map[]
    ensures r.history == c.history && r.lastActivity == c.lastActivity
  {
    c.(currentAction := None, collectedData := map[])
  }

  /** `cleanup` removes a conversation whose last activity is older than thirty minutes. */
  predicate IsIdle(c: Conversation, now: int)
  {
    c.lastActivity < now - IdleLimit
  }

  // ---------------------------------------------------------------------
  // The whole store, as functions of the map
  // ---------------------------------------------------------------------

  type Store = map<RoomId, Conversation>

  /** The invariant the store keeps: no room holds more than six messages. */
  predicate CapHolds(cs: Store)
  {
    forall room :: room in cs ==> |cs[room].history| <= HistoryCap
  }

  /** The room's history as the store holds it; a room without an entry has none. */
  function HistoryOf(cs: Store, room: RoomId): seq<Entry>
  {
    if room in cs then cs[room].history else []
  }

  /** The room's pending action; a room without an entry has none. */
  function ActionOf(cs: Store, room: RoomId): Option<string>
  {
    if room in cs then cs[room].currentAction else None
  }

  /** The data collected so far in the room; a room without an entry has none. */
  function DataOf(cs: Store, room: RoomId): Data
  {
    if room in cs then cs[room].collectedData else map[]
  }

  /** `getConversation`: the room's entry exists afterwards; an existing one is untouched. */
  function Ensured(cs: Store, room: RoomId, now: int): (r: Store)
    ensures room in r
    ensures r[room] == if room in cs then cs[room] else Fresh(now)
    ensures forall k :: k != room ==> (k in r <==> k in cs)
    ensures forall k :: k in cs ==> k in r && r[k] == cs[k]
    ensures CapHolds(cs) ==> CapHolds(r)
    ensures HistoryOf(r, room) == HistoryOf(cs, room) && ActionOf(r, room) == ActionOf(cs, room)
  {
    if room in cs then cs else cs[room := Fresh(now)]
  }

  /** The store after `op` is applied to the room's (possibly new) conversation. */
  function Updated(cs: Store, room: RoomId, now: int, c: Conversation): (r: Store)
    ensures room in r && r[room] == c
    ensures forall k :: k != room ==> (k in r <==> k in cs) && (k in cs ==> r[k] == cs[k])
  {
    Ensured(cs, room, now)[room := c]
  }

  function AfterAddMessage(cs: Store, room: RoomId, role: Role, content: string, now: int): (r: Store)
    ensures room in r && r[room] == Appended(Ensured(cs, room, now)[room], role, content, now)
    ensures forall k :: k != room ==> (k in r <==> k in cs) && (k in cs ==> r[k] == cs[k])
    ensures CapHolds(cs) ==> CapHolds(r)
    ensures HistoryOf(r, room) == LastN(HistoryOf(cs, room) + [Entry(role, content, now)], HistoryCap)
    ensures ActionOf(r, room) == ActionOf(cs, room)
  {
    Updated(cs, room, now, Appended(Ensured(cs, room, now)[room], role, content, now))
  }

  function AfterSetCurrentAction(cs: Store, room: RoomId, action: string, data: Data, now: int): (r: Store)
    ensures room in r && r[room] == WithAction(Ensured(cs, room, now)[room], action, data, now)
    ensures forall k :: k != room ==> (k in r <==> k in cs) && (k in cs ==> r[k] == cs[k])
    ensures CapHolds(cs) ==> CapHolds(r)
    ensures HistoryOf(r, room) == HistoryOf(cs, room) && ActionOf(r, room) == Some(action)
  {
    Updated(cs, room, now, WithAction(Ensured(cs, room, now)[room], action, data, now))
  }

  function AfterUpdateCollectedData(cs: Store, room: RoomId, data: Data, now: int): (r: Store)
    ensures room in r && r[room] == WithData(Ensured(cs, room, now)[room], data, now)
    ensures forall k :: k != room ==> (k in r <==> k in cs) && (k in cs ==> r[k] == cs[k])
    ensures CapHolds(cs) ==> CapHolds(r)
    ensures HistoryOf(r, room) == HistoryOf(cs, room) && ActionOf(r, room) == ActionOf(cs, room)
  {
    Updated(cs, room, now, WithData(Ensured(cs, room, now)[room], data, now))
  }

  function AfterClearCurrentAction(cs: Store, room: RoomId, now: int): (r: Store)
    ensures room in r && r[room] == Cleared(Ensured(cs, room, now)[room])
    ensures forall k :: k != room ==> (k in r <==> k in cs) && (k in cs ==> r[k] == cs[k])
    ensures CapHolds(cs) ==> CapHolds(r)
    ensures HistoryOf(r, room) == HistoryOf(cs, room) && ActionOf(r, room).None?
  {
    Updated(cs, room, now, Cleared(Ensured(cs, room, now)[room]))
  }

  /** The rooms in `pending` are still to be examined; the others stay only if they are not idle. */
  function SweptExcept(cs: Store, pending: set<RoomId>, now: int): (r: Store)
  {
    map room | room in cs && (room in pending || !IsIdle(cs[room], now)) :: cs[room]
  }

  /** `cleanup`: exactly the idle rooms go, and every other room keeps its entry as it was. */
  function Swept(cs: Store, now: int): (r: Store)
    ensures forall room :: room in r <==> room in cs && !IsIdle(cs[room], now)
    ensures forall room :: room in r ==> r[room] == cs[room]
    ensures CapHolds(cs) ==> CapHolds(r)
  {
    SweptExcept(cs, {}, now)
  }

  // ---------------------------------------------------------------------
  // Laws relating the operations
  // ---------------------------------------------------------------------

  /** Adding a message leaves the last six of the old history followed by the new entry. */
  lemma AppendedIsLastSix(c: Conversation, role: Role, content: string, now: int)
    ensures Appended(c, role, content, now).history == LastN(c.history + [Entry(role, content, now)], HistoryCap)
    ensures |c.history| < HistoryCap ==>
      Appended(c, role, content, now).history == c.history + [Entry(role, content, now)]
  {
  }

  /** Updating the data twice is updating it once with the second update laid over the first. */
  lemma MergeTwice(base: Data, first: Data, second: Data)
    ensures Merge(Merge(base, first), second) == Merge(base, Merge(first, second))
  {
  }

  /** Clearing twice is clearing once. */
  lemma ClearedIsIdempotent(c: Conversation)
    ensures Cleared(Cleared(c)) == Cleared(c)
  {
  }

  /** Sweeping twice at the same time removes nothing more. */
  lemma SweptIsIdempotent(cs: Store, now: int)
    ensures Swept(Swept(cs, now), now) == Swept(cs, now)
  {
    var once := Swept(cs, now);
    assert forall room :: room in Swept(once, now) <==> room in once;
  }

  /** A room touched at `now` survives a sweep at any time up to thirty minutes later. */
  lemma TouchedRoomSurvivesSweep(cs: Store, room: RoomId, role: Role, content: string, now: int, later: int)
    requires later <= now + IdleLimit
    ensures room in Swept(AfterAddMessage(cs, room, role, content, now), later)
  {
  }

  // ---------------------------------------------------------------------
  // The store object
  // ---------------------------------------------------------------------

  /** `class ConversationState`: the map is updated in place by each method. */
  class ConversationStore {
    var conversations: Store

    ghost predicate Valid()
      reads this
    {
      CapHolds(conversations)
    }

    constructor()
      ensures Valid() && conversations == map[]
    {
      conversations := map[];
    }

    /** `getConversation(roomId)`: fetch the room's conversation, creating it if needed. */
    method GetConversation(room: RoomId, now: int) returns (c: Conversation)
      requires Valid()
      modifies this
      ensures Valid()
      ensures conversations == Ensured(old(conversations), room, now)
      ensures c == conversations[room]
    {
      if room !in conversations {
        conversations := conversations[room := Fresh(now)];
      }
      c := conversations[room];
    }

    /** `addMessage(roomId, role, content)` */
    method AddMessage(room: RoomId, role: Role, content: string, now: int)
      requires Valid()
      modifies this
      ensures Valid()
      ensures conversations == AfterAddMessage(old(conversations), room, role, content, now)
    {
      var conv := GetConversation(room, now);
      var history := conv.history + [Entry(role, content, now)];
      if |history| > HistoryCap {
        history := history[|history| - HistoryCap..];
      }
      conversations := conversations[room := conv.(history := history, lastActivity := now)];
    }

    /** `setCurrentAction(roomId, action, data)`; the source's default `data = {}` is `map[]` here. */
    method SetCurrentAction(room: RoomId, action: string, data: Data, now: int)
      requires Valid()
      modifies this
      ensures Valid()
      ensures conversations == AfterSetCurrentAction(old(conversations), room, action, data, now)
    {
      var conv := GetConversation(room, now);
      conversations := conversations[room :=
        conv.(currentAction := Some(action), collectedData := conv.collectedData + data, lastActivity := now)];
    }

    /** `updateCollectedData(roomId, data)` */
    method UpdateCollectedData(room: RoomId, data: Data, now: int)
      requires Valid()
      modifies this
      ensures Valid()
      ensures conversations == AfterUpdateCollectedData(old(conversations), room, data, now)
    {
      var conv := GetConversation(room, now);
      conversations := conversations[room := conv.(collectedData := conv.collectedData + data, lastActivity := now)];
    }

    /** `getCurrentAction(roomId)`; like every getter it creates the room's entry. */
    method GetCurrentAction(room: RoomId, now: int) returns (action: Option<string>)
      requires Valid()
      modifies this
      ensures Valid()
      ensures conversations == Ensured(old(conversations), room, now)
      ensures action == (if room in old(conversations) then old(conversations)[room].currentAction else None)
    {
      var conv := GetConversation(room, now);
      action := conv.currentAction;
    }

    /** `getCollectedData(roomId)` */
    method GetCollectedData(room: RoomId, now: int) returns (data: Data)
      requires Valid()
      modifies this
      ensures Valid()
      ensures conversations == Ensured(old(conversations), room, now)
      ensures data == (if room in old(conversations) then old(conversations)[room].collectedData else map[])
    {
      var conv := GetConversation(room, now);
      data := conv.collectedData;
    }

    /** `clearCurrentAction(roomId)`: does not refresh the last activity. */
    method ClearCurrentAction(room: RoomId, now: int)
      requires Valid()
      modifies this
      ensures Valid()
      ensures conversations == AfterClearCurrentAction(old(conversations), room, now)
    {
      var conv := GetConversation(room, now);
      conversations := conversations[room := conv.(currentAction := None, collectedData := map[])];
    }

    /** `getHistoryForAI(roomId, limit)`: the tail of the history, oldest first. */
    method GetHistoryForAI(room: RoomId, limit: int, now: int) returns (h: seq<Entry>)
      requires Valid()
      modifies this
      ensures Valid()
      ensures conversations == Ensured(old(conversations), room, now)
      ensures h == SliceFromEnd(conversations[room].history, limit)
    {
      var conv := GetConversation(room, now);
      h := SliceFromEnd(conv.history, limit);
    }

    /** `hasActiveConversation(roomId)`: never creates an entry. */
    method HasActiveConversation(room: RoomId) returns (active: bool)
      ensures active <==> room in conversations && conversations[room].currentAction.Some?
    {
      if room !in conversations {
        return false;
      }
      active := conversations[room].currentAction.Some?;
    }

    /** `cleanup()`: walks the rooms and deletes each idle one. */
    method Cleanup(now: int)
      requires Valid()
      modifies this
      ensures Valid()
      ensures conversations == Swept(old(conversations), now)
    {
      ghost var original := conversations;
      var pending := conversations.Keys;
      assert conversations == SweptExcept(original, pending, now);
      while pending != {}
        invariant pending <= original.Keys
        invariant conversations == SweptExcept(original, pending, now)
        decreases pending
      {
        var room := AnyElement(pending);
        if IsIdle(conversations[room], now) {
          conversations := conversations - {room};
        }
        pending := pending - {room};
        assert conversations == SweptExcept(original, pending, now);
      }
    }
  }
}
