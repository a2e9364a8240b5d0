/**
 * The help chat (src/store/chatbotStore.ts): whether the chat window is
 * open and the conversation shown in it. The bot answers after a typing
 * delay; here that delayed answer is its own step, `DeliverReply`, which
 * the app runs after `SendMessage` with the same content. Clock readings
 * (`Date.now()` for ids, `new Date()` for timestamps) are parameters.
 */
module ChatbotStore {
  import opened Wrappers
  import opened Types
  import opened Text
  import opened ChatbotResponses

  datatype ChatMessage = ChatMessage(id: string, content: string, isBot: bool, timestamp: int)

  const WelcomeText := "Bonjour ! Je suis l'assistant BusinessConnect. Comment puis-je vous aider ?"

  /** The greeting shown first; its timestamp is taken once, when the app loads. */
  function Welcome(loadTime: int): (w: ChatMessage)
    ensures w.isBot && w.id == "welcome" && w.content == WelcomeText && w.timestamp == loadTime
  {
    ChatMessage("welcome", WelcomeText, true, loadTime)
  }

  /** `r.response + (r.followUp ? '\n\n' + r.followUp : '')`. */
  function ReplyText(r: ChatbotResponse): (t: string)
    ensures |r.response| <= |t| && t[..|r.response|] == r.response
    ensures t == r.response <==> r.followUp.None? || r.followUp.value == ""
    ensures r.followUp.Some? && r.followUp.value != "" ==> t[|r.response|..] == "\n\n" + r.followUp.value
  {
    r.response + (if r.followUp.Some? && r.followUp.value != "" then "\n\n" + r.followUp.value else "")
  }

  /** What the bot answers to a message. */
  function BotReply(content: string): string {
    ReplyText(FindResponse(content))
  }

  /** The bot gives the same answer to messages that differ only in letter case. */
  lemma BotReplyIgnoresCase(a: string, b: string)
    requires |a| == |b|
    requires forall i :: 0 <= i < |a| ==> LowerChar(a[i]) == LowerChar(b[i])
    ensures BotReply(a) == BotReply(b)
  {
    FindResponseIgnoresCase(a, b);
  }

  /** A message that matches no keyword gets the default answer. */
  lemma BotReplyDefault(content: string)
    requires forall i :: 0 <= i < |Table| ==> !Matches(Table[i], Lower(content))
    ensures BotReply(content) == ReplyText(Default)
  {
    FindResponseFirstMatch(content);
  }

  /** The default answer carries its suggestion after a blank line. */
  lemma DefaultReplyHasFollowUp()
    ensures ReplyText(Default) == Default.response + "\n\n" + Default.followUp.value
  {
    assert Default.followUp.Some? && Default.followUp.value != "";
  }

  /** The chat store. */
  class ChatbotStore {
    var isOpen: bool
    var messages: seq<ChatMessage>
    const welcome: ChatMessage

    /** The chat starts closed, showing only the greeting. */
    constructor (loadTime: int)
      ensures welcome == Welcome(loadTime)
      ensures !isOpen && messages == [welcome]
    {
      welcome := Welcome(loadTime);
      isOpen := false;
      messages := [Welcome(loadTime)];
    }

    method ToggleChat()
      modifies this`isOpen
      ensures isOpen == !old(isOpen)
    {
      isOpen := !isOpen;
    }

    method OpenChat()
      modifies this`isOpen
      ensures isOpen
    {
      isOpen := true;
    }

    method CloseChat()
      modifies this`isOpen
      ensures !isOpen
    {
      isOpen := false;
    }

    /** Appends the user's message at once; the bot's answer comes later with `DeliverReply`. */
    method SendMessage(content: string, now: nat, timestamp: int)
      modifies this`messages
      ensures messages == old(messages) + [ChatMessage("user-" + Dec(now), content, false, timestamp)]
    {
      var userMessage := ChatMessage("user-" + Dec(now), content, false, timestamp);
      messages := messages + [userMessage];
    }

    /** The delayed step of `sendMessage`: appends the bot's answer to `content`. */
    method DeliverReply(content: string, now: nat, timestamp: int)
      modifies this`messages
      ensures messages == old(messages) + [ChatMessage("bot-" + Dec(now), BotReply(content), true, timestamp)]
    {
      var response := FindResponse(content);
      var botMessage := ChatMessage(
        "bot-" + Dec(now),
        ReplyText(response),
        true,
        timestamp);
      messages := messages + [botMessage];
    }

    method ClearMessages()
      modifies this`messages
      ensures messages == [welcome]
    {
      messages := [welcome];
    }
  }
}
