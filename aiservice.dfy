/**
 * The part of the AI service that is program logic: the list of chat
 * messages sent to the language model for one turn, and the wrapping of
 * any failure into one error message. The model's answer (already parsed
 * from JSON) and every way the call can fail are the parameter
 * `completion`; the system prompt text is the parameter `systemPrompt`.
 */
module AiService {
  import opened Js
  import opened ConversationState

  /** One entry of the `messages` array; history entries keep their timestamp. */
  datatype ChatMessage = ChatMessage(role: Role, content: string, timestamp: Option<int>)

  /** The parsed JSON answer: `{ action, data, message }`. */
  datatype AiReply = AiReply(action: Value, data: Data, message: Value)

  /** How many history entries are sent at most. */
  const HistoryWindow: nat := 4

  const AiErrorPrefix := "Failed to process your request with AI: "

  function Plain(role: Role, content: string): (m: ChatMessage)
    ensures m.timestamp.None?
  {
    ChatMessage(role, content, None)
  }

  /** A history entry is pushed as it is stored. */
  function FromEntry(e: Entry): (m: ChatMessage)
    ensures m.role == e.role && m.content == e.content && m.timestamp == Some(e.timestamp)
  {
    ChatMessage(e.role, e.content, Some(e.timestamp))
  }

  /** `currentAction && Object.keys(collectedData).length > 0` */
  predicate HasContext(currentAction: Option<string>, collectedData: Data)
  {
    currentAction.Some? && currentAction.value != "" && |collectedData| > 0
  }

  /** The messages open with the system prompt and close with the user's message. */
  predicate Framed(messages: seq<ChatMessage>, systemPrompt: string, userMessage: string)
  {
    |messages| >= 2 && messages[0] == Plain(System, systemPrompt) && messages[|messages| - 1] == Plain(User, userMessage)
  }

  /** The context note; `dataJson` is `JSON.stringify(collectedData)`. */
  function ContextNote(action: string, dataJson: string): (note: string)
    ensures "Context: User is currently working on: " + action <= note
    ensures |dataJson| <= |note| && note[|note| - |dataJson|..] == dataJson
  {
    OpensWith("Context: User is currently working on: " + action, ". Data collected so far: ", dataJson, "");
    assert "Context: User is currently working on: " + action + ". Data collected so far: " + dataJson + "" ==
      "Context: User is currently working on: " + action + ". Data collected so far: " + dataJson;
    "Context: User is currently working on: " + action + ". Data collected so far: " + dataJson
  }

  /**
   * The `messages` array of `processWithAI`: the system prompt, then at most
   * the last four history entries in their order, then the context note when
   * an action with data is in progress, then the user's message.
   */
  method BuildMessages(systemPrompt: string, userMessage: string, history: seq<Entry>,
                       currentAction: Option<string>, collectedData: Data, dataJson: string)
    returns (messages: seq<ChatMessage>)
    ensures |messages| == 2 + Min(HistoryWindow, |history|) + (if HasContext(currentAction, collectedData) then 1 else 0)
    ensures messages[0] == Plain(System, systemPrompt)
    ensures forall i :: 1 <= i <= Min(HistoryWindow, |history|) ==>
      messages[i] == FromEntry(history[|history| - Min(HistoryWindow, |history|) + i - 1])
    ensures HasContext(currentAction, collectedData) ==>
      messages[|messages| - 2] == Plain(System, ContextNote(currentAction.value, dataJson))
    ensures messages[|messages| - 1] == Plain(User, userMessage)
  {
    messages := [Plain(System, systemPrompt)];
    var fromHistory := HistoryMessages(history);
    messages := messages + fromHistory;
    ghost var shown := |fromHistory|;
    forall i | 1 <= i <= shown
      ensures messages[i] == FromEntry(history[|history| - shown + i - 1])
    {
      assert messages[i] == fromHistory[i - 1];
    }
    ghost var withHistory := messages;
    if HasContext(currentAction, collectedData) {
      messages := messages + [Plain(System, ContextNote(currentAction.value, dataJson))];
    }
    messages := messages + [Plain(User, userMessage)];
    assert messages[..1 + shown] == withHistory;
  }

  /** The part of the history that is sent: its last four entries, as chat messages, oldest first. */
  method HistoryMessages(history: seq<Entry>) returns (fromHistory: seq<ChatMessage>)
    ensures |fromHistory| == Min(HistoryWindow, |history|)
    ensures forall i :: 0 <= i < |fromHistory| ==> fromHistory[i] == FromEntry(history[|history| - |fromHistory| + i])
  {
    fromHistory := [];
    if |history| > 0 {
      var limited := SliceFromEnd(history, HistoryWindow);
      assert limited == LastN(history, HistoryWindow);
      fromHistory := seq(|limited|, i requires 0 <= i < |limited| => FromEntry(limited[i]));
    }
  }

  /**
   * `processWithAI(...)`: the messages that are sent, and the model's answer,
   * or the failure re-thrown with the fixed prefix.
   */
  method ProcessWithAI(systemPrompt: string, userMessage: string, history: seq<Entry>,
                       currentAction: Option<string>, collectedData: Data, dataJson: string,
                       completion: Outcome<AiReply>)
    returns (result: Outcome<AiReply>, messages: seq<ChatMessage>)
    ensures completion.Returned? ==> result == completion
    ensures completion.Threw? ==> result == Threw(AiErrorPrefix + completion.message)
    ensures |messages| == 2 + Min(HistoryWindow, |history|) + (if HasContext(currentAction, collectedData) then 1 else 0)
    ensures Framed(messages, systemPrompt, userMessage)
    ensures forall i :: 1 <= i <= Min(HistoryWindow, |history|) ==>
      messages[i] == FromEntry(history[|history| - Min(HistoryWindow, |history|) + i - 1])
  {
    messages := BuildMessages(systemPrompt, userMessage, history, currentAction, collectedData, dataJson);
    match completion
    case Returned(reply) =>
      result := Returned(reply);
    case Threw(message) =>
      result := Threw(AiErrorPrefix + message);
  }
}
