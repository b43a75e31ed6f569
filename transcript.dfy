/**
 * The transcript of a voice session and what the message list shows of it
 * (the `Message` record, the classification done by `onMessage`, and the
 * selections `speakingMessageIndex`, `lastBotMessage` and the per-item flags).
 */
module Transcript {
  import opened Wrappers
  import Text

  /** One transcript entry; `isUser` is false for the agent's lines. */
  datatype Message = Message(content: string, isUser: bool)

  const AssistantTag: string := "assistant"
  const UserTag: string := "user"

  /**
   * The list after the session client reports a message whose `source` is
   * `source` and whose text is `text`. A missing source or text is the empty
   * string (both are falsy in the original condition).
   */
  function AppendReceived(messages: seq<Message>, source: string, text: string): (r: seq<Message>)
    ensures |messages| <= |r| <= |messages| + 1
    ensures r[..|messages|] == messages
    ensures |r| == |messages| + 1 <==>
              text != "" && (Text.Occurs(source, AssistantTag) || Text.Occurs(source, UserTag))
    ensures |r| == |messages| + 1 ==>
              r[|messages|] == Message(text, !Text.Occurs(source, AssistantTag))
  {
    Text.ContainsIffOccurs(source, AssistantTag);
    Text.ContainsIffOccurs(source, UserTag);
    if source != "" && Text.Contains(source, AssistantTag) && text != "" then
      messages + [Message(text, false)]
    else if source != "" && Text.Contains(source, UserTag) && text != "" then
      messages + [Message(text, true)]
    else
      messages
  }

  /** `messages.findIndex(msg => !msg.isUser)`: the first agent entry, or -1. */
  function FirstAgentIndex(messages: seq<Message>): (r: int)
    ensures -1 <= r < |messages|
    ensures r >= 0 ==> !messages[r].isUser && forall j :: 0 <= j < r ==> messages[j].isUser
    ensures r == -1 <==> forall j :: 0 <= j < |messages| ==> messages[j].isUser
    decreases |messages|
  {
    if messages == [] then -1
    else if !messages[0].isUser then 0
    else
      var k := FirstAgentIndex(messages[1..]);
      if k == -1 then -1 else k + 1
  }

  /** `speakingMessageIndex`: while the agent speaks, its first entry; otherwise -1. */
  function SpeakingIndex(messages: seq<Message>, isSpeaking: bool): (r: int)
    ensures !isSpeaking ==> r == -1
    ensures isSpeaking && r >= 0 ==>
              r < |messages| && !messages[r].isUser && forall j :: 0 <= j < r ==> messages[j].isUser
    ensures isSpeaking ==> (r == -1 <==> forall j :: 0 <= j < |messages| ==> messages[j].isUser)
  {
    if isSpeaking then FirstAgentIndex(messages) else -1
  }

  /**
   * `messages.filter(msg => !msg.isUser)`: every entry kept is an agent entry of
   * the list, and every agent entry is kept; `AgentMessagesAppend` adds that the
   * order is kept.
   */
  function AgentMessages(messages: seq<Message>): (r: seq<Message>)
    ensures |r| <= |messages|
    ensures forall m :: m in r ==> m in messages && !m.isUser
    ensures forall k :: 0 <= k < |messages| && !messages[k].isUser ==> messages[k] in r
    ensures |messages| == 1 ==> r == (if messages[0].isUser then [] else messages)
    decreases |messages|
  {
    if messages == [] then []
    else
      var rest := AgentMessages(messages[..|messages| - 1]);
      var last := messages[|messages| - 1];
      if last.isUser then rest else rest + [last]
  }

  /**
   * The filter splits over concatenation: the agent entries of `a + b` are
   * those of `a` followed by those of `b`. With the one-entry case this fixes
   * the result as the agent entries in their original order.
   */
  lemma {:induction false} AgentMessagesAppend(a: seq<Message>, b: seq<Message>)
    ensures AgentMessages(a + b) == AgentMessages(a) + AgentMessages(b)
    decreases |b|
  {
    if b == [] {
      assert a + b == a;
    } else {
      var front := b[..|b| - 1];
      assert (a + b)[..|a + b| - 1] == a + front;
      AgentMessagesAppend(a, front);
    }
  }

  /** `lastBotMessage`: the content of the last agent entry, or `''` when there is none. */
  function LastBotMessage(messages: seq<Message>): (r: string)
    ensures (forall j :: 0 <= j < |messages| ==> messages[j].isUser) ==> r == ""
    ensures r != "" ==> exists k :: 0 <= k < |messages| && !messages[k].isUser && messages[k].content == r
  {
    var agents := AgentMessages(messages);
    if agents == [] then "" else agents[|agents| - 1].content
  }

  /** No agent entry at all leaves `lastBotMessage` empty. */
  lemma {:induction false} NoAgentNoBotMessage(messages: seq<Message>)
    requires forall j :: 0 <= j < |messages| ==> messages[j].isUser
    ensures AgentMessages(messages) == []
    ensures LastBotMessage(messages) == ""
    decreases |messages|
  {
    if messages != [] {
      NoAgentNoBotMessage(messages[..|messages| - 1]);
    }
  }

  /** `lastBotMessage` is the content of the agent entry that no later agent entry follows. */
  lemma {:induction false} LastBotMessageIsLastAgent(messages: seq<Message>, k: int)
    requires 0 <= k < |messages| && !messages[k].isUser
    requires forall j :: k < j < |messages| ==> messages[j].isUser
    ensures LastBotMessage(messages) == messages[k].content
    decreases |messages|
  {
    var front := messages[..|messages| - 1];
    if k < |messages| - 1 {
      assert forall j :: k < j < |front| ==> front[j].isUser;
      LastBotMessageIsLastAgent(front, k);
    }
  }

  /** One rendered row of the message list. */
  datatype Item = Item(content: string, isUser: bool, hidden: bool, speaking: bool)

  /** The message list: a placeholder when empty, otherwise one row per entry. */
  datatype View = Placeholder | Items(items: seq<Item>)

  /** The row for entry `i`; `speakingIndex` is `speakingMessageIndex`. */
  function RenderItem(messages: seq<Message>, i: nat, speakingIndex: int, isSpeaking: bool): Item
    requires i < |messages|
  {
    var m := messages[i];
    Item(m.content, m.isUser,
         !m.isUser && i == |messages| - 1,
         !m.isUser && i == speakingIndex && isSpeaking)
  }

  /**
   * The list as `messages.map(...)` renders it: the last entry is hidden when it
   * is the agent's, and the agent's first entry is flagged while it speaks.
   */
  function Render(messages: seq<Message>, isSpeaking: bool): (v: View)
    ensures v.Placeholder? <==> messages == []
    ensures v.Items? ==> |v.items| == |messages|
    ensures v.Items? ==> forall i :: 0 <= i < |messages| ==>
              && v.items[i].content == messages[i].content
              && v.items[i].isUser == messages[i].isUser
              && (v.items[i].hidden <==> !messages[i].isUser && i == |messages| - 1)
              && (v.items[i].speaking <==> isSpeaking && i == FirstAgentIndex(messages))
  {
    var index := SpeakingIndex(messages, isSpeaking);
    if |messages| > 0 then
      Items(seq(|messages|, i requires 0 <= i < |messages| => RenderItem(messages, i, index, isSpeaking)))
    else
      Placeholder
  }

  /** A user entry is never flagged speaking, and at most one row is. */
  lemma AtMostOneSpeaking(messages: seq<Message>, isSpeaking: bool, i: nat, j: nat)
    requires Render(messages, isSpeaking).Items?
    requires i < |messages| && j < |messages|
    requires Render(messages, isSpeaking).items[i].speaking
    requires Render(messages, isSpeaking).items[j].speaking
    ensures i == j && !messages[i].isUser && isSpeaking
  {
  }

  /**
   * The speech bubble over the avatar: shown while the list is non-empty, with
   * `lastBotMessage` as its text.
   */
  function Bubble(messages: seq<Message>): (r: Option<string>)
    ensures r.None? <==> messages == []
    ensures r.Some? && r.value != "" ==>
              exists k :: 0 <= k < |messages| && !messages[k].isUser && messages[k].content == r.value
    ensures forall k :: 0 <= k < |messages| && !messages[k].isUser &&
                        (forall j :: k < j < |messages| ==> messages[j].isUser) ==>
              r == Some(messages[k].content)
  {
    LastAgentIsShown(messages);
    if |messages| > 0 then Some(LastBotMessage(messages)) else None
  }

  /** `LastBotMessageIsLastAgent` for every agent entry that no later agent entry follows. */
  lemma LastAgentIsShown(messages: seq<Message>)
    ensures forall k :: 0 <= k < |messages| && !messages[k].isUser &&
                        (forall j :: k < j < |messages| ==> messages[j].isUser) ==>
              LastBotMessage(messages) == messages[k].content
  {
    forall k | 0 <= k < |messages| && !messages[k].isUser &&
               (forall j :: k < j < |messages| ==> messages[j].isUser)
      ensures LastBotMessage(messages) == messages[k].content
    {
      LastBotMessageIsLastAgent(messages, k);
    }
  }

  /** The entry the list hides is exactly the one the bubble shows. */
  lemma HiddenEntryIsInBubble(messages: seq<Message>, isSpeaking: bool, i: nat)
    requires Render(messages, isSpeaking).Items? && i < |messages|
    requires Render(messages, isSpeaking).items[i].hidden
    ensures Bubble(messages) == Some(messages[i].content)
  {
    LastBotMessageIsLastAgent(messages, i);
  }
}
