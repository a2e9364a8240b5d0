/**
 * The messaging inbox (src/store/messagesStore.ts): every message, the
 * conversations with their unread counters and last message, and the
 * conversation on screen. `Date.now()` (for ids) and the creation instant
 * (for `createdAt`) are parameters of the operations that read the clock.
 */
module Messages {
  import opened Wrappers
  import opened Types
  import opened Lists
  import opened Text

  /** The sender id of every message the user writes. */
  const CurrentUser := "current-user"

  // ---------------------------------------------------------------------
  // getConversationMessages: filter by conversation, then sort by time
  // ---------------------------------------------------------------------

  function InConversation(conversationId: string): Message -> bool {
    (m: Message) => m.conversationId == conversationId
  }

  predicate SortedByTime(ms: seq<Message>) {
    forall i, j :: 0 <= i < j < |ms| ==> ms[i].createdAt <= ms[j].createdAt
  }

  /** Puts `m` into a time-sorted list, before the first message that is not earlier. */
  function Insert(m: Message, sorted: seq<Message>): (r: seq<Message>)
    ensures multiset(r) == multiset(sorted) + multiset{m}
    decreases |sorted|
  {
    if sorted == [] || m.createdAt <= sorted[0].createdAt then
      [m] + sorted
    else
      assert sorted == [sorted[0]] + sorted[1..];
      [sorted[0]] + Insert(m, sorted[1..])
  }

  /** A message no later than any of a sorted list can go in front of it. */
  lemma ConsSorted(x: Message, rest: seq<Message>)
    requires SortedByTime(rest)
    requires forall j :: 0 <= j < |rest| ==> x.createdAt <= rest[j].createdAt
    ensures SortedByTime([x] + rest)
  {
    var r := [x] + rest;
    forall i, j | 0 <= i < j < |r| ensures r[i].createdAt <= r[j].createdAt {
      assert r[j] == rest[j - 1];
      if i > 0 {
        assert r[i] == rest[i - 1];
      }
    }
  }

  lemma SortedTail(sorted: seq<Message>)
    requires SortedByTime(sorted) && sorted != []
    ensures SortedByTime(sorted[1..])
    ensures forall j :: 0 <= j < |sorted[1..]| ==> sorted[0].createdAt <= sorted[1..][j].createdAt
  {
    var tail := sorted[1..];
    forall i, j | 0 <= i < j < |tail| ensures tail[i].createdAt <= tail[j].createdAt {
      assert tail[i] == sorted[i + 1] && tail[j] == sorted[j + 1];
    }
    forall j | 0 <= j < |tail| ensures sorted[0].createdAt <= tail[j].createdAt {
      assert tail[j] == sorted[j + 1];
    }
  }

  /** Inserting keeps a lower bound that both the list and the new message respect. */
  lemma InsertLowerBound(m: Message, tail: seq<Message>, lo: int)
    requires lo <= m.createdAt
    requires forall j :: 0 <= j < |tail| ==> lo <= tail[j].createdAt
    ensures forall j :: 0 <= j < |Insert(m, tail)| ==> lo <= Insert(m, tail)[j].createdAt
  {
    var rest := Insert(m, tail);
    forall j | 0 <= j < |rest| ensures lo <= rest[j].createdAt {
      assert rest[j] in multiset(rest);
      if rest[j] != m {
        assert rest[j] in multiset(tail);
        var k :| 0 <= k < |tail| && tail[k] == rest[j];
      }
    }
  }

  lemma {:induction false} InsertSorted(m: Message, sorted: seq<Message>)
    requires SortedByTime(sorted)
    ensures SortedByTime(Insert(m, sorted))
    decreases |sorted|
  {
    if sorted == [] || m.createdAt <= sorted[0].createdAt {
      forall j | 0 <= j < |sorted| ensures m.createdAt <= sorted[j].createdAt {
      }
      ConsSorted(m, sorted);
    } else {
      SortedTail(sorted);
      InsertSorted(m, sorted[1..]);
      InsertLowerBound(m, sorted[1..], sorted[0].createdAt);
      ConsSorted(sorted[0], Insert(m, sorted[1..]));
    }
  }

  /** The comparator sort `(a, b) => time(a) - time(b)`, as an insertion sort. */
  function SortByTime(ms: seq<Message>): (r: seq<Message>)
    ensures SortedByTime(r)
    ensures multiset(r) == multiset(ms)
    decreases |ms|
  {
    if ms == [] then []
    else
      assert ms == [ms[0]] + ms[1..];
      InsertSorted(ms[0], SortByTime(ms[1..]));
      Insert(ms[0], SortByTime(ms[1..]))
  }

  function ConversationMessages(ms: seq<Message>, conversationId: string): seq<Message> {
    SortByTime(Filter(ms, InConversation(conversationId)))
  }

  /**
   * The messages of a conversation come out in time order, each as often
   * as it is in the inbox, and a message is among them exactly when it
   * belongs to that conversation.
   */
  lemma ConversationMessagesSpec(ms: seq<Message>, conversationId: string)
    ensures SortedByTime(ConversationMessages(ms, conversationId))
    ensures multiset(ConversationMessages(ms, conversationId)) == multiset(Filter(ms, InConversation(conversationId)))
    ensures forall m ::
      multiset(ConversationMessages(ms, conversationId))[m] == if m.conversationId == conversationId then multiset(ms)[m] else 0
    ensures forall m :: m in ConversationMessages(ms, conversationId) <==> m in ms && m.conversationId == conversationId
  {
    var f := Filter(ms, InConversation(conversationId));
    var r := ConversationMessages(ms, conversationId);
    FilterCounts(ms, InConversation(conversationId));
    forall m ensures m in r <==> m in f {
      assert m in r <==> m in multiset(r);
      assert m in f <==> m in multiset(f);
    }
  }

  // ---------------------------------------------------------------------
  // The per-conversation updates
  // ---------------------------------------------------------------------

  /** `messages.map(msg => msg.conversationId === id ? {...msg, read: true} : msg)`. */
  function MarkedRead(ms: seq<Message>, conversationId: string): (r: seq<Message>)
    ensures |r| == |ms|
    ensures forall i :: 0 <= i < |ms| ==> r[i].read == (ms[i].read || ms[i].conversationId == conversationId)
    ensures forall i :: 0 <= i < |ms| ==> r[i].(read := ms[i].read) == ms[i]
  {
    seq(|ms|, i requires 0 <= i < |ms| =>
      if ms[i].conversationId == conversationId then ms[i].(read := true) else ms[i])
  }

  /** `conversations.map(conv => conv.id === id ? {...conv, unreadCount: 0} : conv)`. */
  function Cleared(cs: seq<Conversation>, conversationId: string): (r: seq<Conversation>)
    ensures |r| == |cs|
    ensures forall i :: 0 <= i < |cs| ==> r[i].unreadCount == if cs[i].id == conversationId then 0 else cs[i].unreadCount
    ensures forall i :: 0 <= i < |cs| ==> r[i].(unreadCount := cs[i].unreadCount) == cs[i]
  {
    seq(|cs|, i requires 0 <= i < |cs| =>
      if cs[i].id == conversationId then cs[i].(unreadCount := 0) else cs[i])
  }

  /** `conversations.map(conv => conv.id === id ? {...conv, lastMessage: m} : conv)`. */
  function WithLastMessage(cs: seq<Conversation>, conversationId: string, m: Message): (r: seq<Conversation>)
    ensures |r| == |cs|
    ensures forall i :: 0 <= i < |cs| ==> r[i].lastMessage == if cs[i].id == conversationId then Some(m) else cs[i].lastMessage
    ensures forall i :: 0 <= i < |cs| ==> r[i].(lastMessage := cs[i].lastMessage) == cs[i]
  {
    seq(|cs|, i requires 0 <= i < |cs| =>
      if cs[i].id == conversationId then cs[i].(lastMessage := Some(m)) else cs[i])
  }

  function HasId(conversationId: string): Conversation -> bool {
    (c: Conversation) => c.id == conversationId
  }

  function WithParticipant(participantId: string): Conversation -> bool {
    (c: Conversation) => c.participantId == participantId
  }

  /** The test `p => p.id === participantId` applied to the participant directory. */
  function ById(participantId: string): Participant -> bool {
    (p: Participant) => p.id == participantId
  }

  /**
   * `conversations.find(c => c.id === id)?.participantId || ''`: a missing
   * conversation and an empty participant id both give ''.
   */
  function Receiver(cs: seq<Conversation>, conversationId: string): (r: string)
    ensures (forall k :: 0 <= k < |cs| ==> cs[k].id != conversationId) ==> r == ""
    ensures forall k ::
      (0 <= k < |cs| && cs[k].id == conversationId && forall j :: 0 <= j < k ==> cs[j].id != conversationId)
      ==> r == cs[k].participantId
  {
    match Find(cs, HasId(conversationId))
    case Some(c) => c.participantId
    case None => ""
  }

  /** The message `sendMessage` writes. */
  function NewMessage(cs: seq<Conversation>, conversationId: string, content: string, now: nat, createdAt: int): Message {
    Message("msg-" + Dec(now), conversationId, CurrentUser, Receiver(cs, conversationId), content, createdAt, true)
  }

  // ---------------------------------------------------------------------
  // getTotalUnreadCount
  // ---------------------------------------------------------------------

  /** `conversations.reduce((acc, conv) => acc + conv.unreadCount, 0)`, folded from the left. */
  function TotalUnread(cs: seq<Conversation>): int
    decreases |cs|
  {
    if cs == [] then 0 else TotalUnread(cs[..|cs| - 1]) + cs[|cs| - 1].unreadCount
  }

  lemma {:induction false} TotalUnreadAppend(a: seq<Conversation>, b: seq<Conversation>)
    ensures TotalUnread(a + b) == TotalUnread(a) + TotalUnread(b)
    decreases |b|
  {
    if b == [] {
      assert a + b == a;
    } else {
      assert (a + b)[..|a + b| - 1] == a + b[..|b| - 1];
      TotalUnreadAppend(a, b[..|b| - 1]);
    }
  }

  /** The total is never negative when no counter is. */
  lemma {:induction false} TotalUnreadNonNegative(cs: seq<Conversation>)
    ensures (forall k :: 0 <= k < |cs| ==> cs[k].unreadCount >= 0) ==> TotalUnread(cs) >= 0
    decreases |cs|
  {
    if cs != [] {
      TotalUnreadNonNegative(cs[..|cs| - 1]);
    }
  }

  /** Clearing a conversation removes exactly its unread messages from the total. */
  lemma {:induction false} TotalUnreadCleared(cs: seq<Conversation>, conversationId: string)
    ensures TotalUnread(Cleared(cs, conversationId))
      == TotalUnread(cs) - TotalUnread(Filter(cs, HasId(conversationId)))
    decreases |cs|
  {
    if cs != [] {
      var last := cs[|cs| - 1];
      var init := cs[..|cs| - 1];
      assert cs == init + [last];
      assert Cleared(cs, conversationId)[..|cs| - 1] == Cleared(init, conversationId);
      TotalUnreadCleared(init, conversationId);
      FilterAppend(init, [last], HasId(conversationId));
      TotalUnreadAppend(Filter(init, HasId(conversationId)), Filter([last], HasId(conversationId)));
      assert [last][1..] == [];
    }
  }

  /** Prepending a conversation with no unread message keeps the total. */
  lemma NewConversationKeepsTotal(c: Conversation, cs: seq<Conversation>)
    requires c.unreadCount == 0
    ensures TotalUnread([c] + cs) == TotalUnread(cs)
  {
    TotalUnreadAppend([c], cs);
    assert [c][..0] == [];
  }

  /** The inbox store. */
  class MessagesStore {
    var messages: seq<Message>
    var conversations: seq<Conversation>
    var activeConversationId: Option<string>

    /** The inbox starts from the given sample messages and conversations, with none on screen. */
    constructor (sampleMessages: seq<Message>, sampleConversations: seq<Conversation>)
      ensures messages == sampleMessages && conversations == sampleConversations
      ensures activeConversationId == None
    {
      messages := sampleMessages;
      conversations := sampleConversations;
      activeConversationId := None;
    }

    /** Shows a conversation; a non-empty id is also marked read. */
    method SetActiveConversation(conversationId: Option<string>)
      modifies this
      ensures activeConversationId == conversationId
      ensures conversationId.Some? && conversationId.value != "" ==>
        messages == MarkedRead(old(messages), conversationId.value)
        && conversations == Cleared(old(conversations), conversationId.value)
      ensures conversationId.None? || conversationId.value == "" ==>
        messages == old(messages) && conversations == old(conversations)
    {
      activeConversationId := conversationId;
      if conversationId.Some? && conversationId.value != "" {
        MarkAsRead(conversationId.value);
      }
    }

    /** The messages of one conversation in time order. */
    function GetConversationMessages(conversationId: string): (r: seq<Message>)
      reads this
      ensures SortedByTime(r)
      ensures multiset(r) == multiset(Filter(messages, InConversation(conversationId)))
      ensures forall m :: multiset(r)[m] == if m.conversationId == conversationId then multiset(messages)[m] else 0
      ensures forall m :: m in r <==> m in messages && m.conversationId == conversationId
    {
      ConversationMessagesSpec(messages, conversationId);
      ConversationMessages(messages, conversationId)
    }

    /** Appends the user's message and makes it the last message of its conversation. */
    method SendMessage(conversationId: string, content: string, now: nat, createdAt: int)
      modifies this`messages, this`conversations
      ensures var m := NewMessage(old(conversations), conversationId, content, now, createdAt);
        messages == old(messages) + [m]
        && m.senderId == CurrentUser && m.read && m.content == content && m.conversationId == conversationId
        && conversations == WithLastMessage(old(conversations), conversationId, m)
    {
      var newMessage := Message("msg-" + Dec(now), conversationId, CurrentUser,
        Receiver(conversations, conversationId), content, createdAt, true);
      messages := messages + [newMessage];
      conversations := WithLastMessage(conversations, conversationId, newMessage);
    }

    /** Marks every message of the conversation read and clears its unread counter. */
    method MarkAsRead(conversationId: string)
      modifies this`messages, this`conversations
      ensures messages == MarkedRead(old(messages), conversationId)
      ensures conversations == Cleared(old(conversations), conversationId)
      ensures GetTotalUnreadCount()
        == old(GetTotalUnreadCount()) - TotalUnread(Filter(old(conversations), HasId(conversationId)))
    {
      TotalUnreadCleared(conversations, conversationId);
      messages := MarkedRead(messages, conversationId);
      conversations := Cleared(conversations, conversationId);
    }

    /**
     * Opens the conversation with a participant: an existing one is reused,
     * an unknown participant gets '', and otherwise a new conversation is
     * put first. `directory` is the participant list the app ships with.
     */
    method StartConversation(participantId: string, directory: seq<Participant>, now: nat, createdAt: int)
      returns (id: string)
      modifies this`conversations, this`activeConversationId
      ensures Find(old(conversations), WithParticipant(participantId)).Some? ==>
        id == Find(old(conversations), WithParticipant(participantId)).value.id
        && activeConversationId == Some(id) && conversations == old(conversations)
      ensures (Find(old(conversations), WithParticipant(participantId)).None?
        && forall k :: 0 <= k < |directory| ==> directory[k].id != participantId) ==>
        id == "" && activeConversationId == old(activeConversationId) && conversations == old(conversations)
      ensures (Find(old(conversations), WithParticipant(participantId)).None?
        && exists k :: 0 <= k < |directory| && directory[k].id == participantId) ==>
        id == "conv-" + Dec(now) && activeConversationId == Some(id)
        && Find(directory, ById(participantId)).Some?
        && conversations ==
          [Conversation(id, participantId, Find(directory, ById(participantId)).value, None, 0, createdAt)]
          + old(conversations)
      ensures TotalUnread(conversations) == TotalUnread(old(conversations))
    {
      var existing := Find(conversations, WithParticipant(participantId));
      if existing.Some? {
        activeConversationId := Some(existing.value.id);
        return existing.value.id;
      }
      var participant := Find(directory, ById(participantId));
      if participant.None? {
        return "";
      }
      var newConversation := Conversation("conv-" + Dec(now), participantId, participant.value, None, 0, createdAt);
      NewConversationKeepsTotal(newConversation, conversations);
      conversations := [newConversation] + conversations;
      activeConversationId := Some(newConversation.id);
      return newConversation.id;
    }

    /** The sum of the unread counters of all conversations. */
    function GetTotalUnreadCount(): (r: int)
      reads this
      ensures (forall k :: 0 <= k < |conversations| ==> conversations[k].unreadCount >= 0) ==> r >= 0
    {
      TotalUnreadNonNegative(conversations);
      TotalUnread(conversations)
    }
  }
}
